/**
  The post router: the remote procedures `hello`, `create`, `getUserPosts` and
  `deletePosts`, over an abstract relational store of post rows and image rows
  whose ids are allocated by auto-increment counters.
 */
module PostRouter {
  import opened Wrappers
  import opened StringSchema
  import Sequences

  /** The part of the authenticated session the router reads. */
  datatype Session = Session(userId: string, userName: string)

  /** A row of the post table. */
  datatype Post = Post(
    id: nat,
    title: string,
    description: string,
    couplesId: string,
    createdById: string,
    datePosted: string,
    createdAt: int)

  /** A row of the image table. */
  datatype ImageRow = ImageRow(id: nat, url: string, postId: nat)

  /** A post as `getUserPosts` returns it, with its images included. */
  datatype PostWithImages = PostWithImages(post: Post, images: seq<ImageRow>)

  /** The raw input of `create`, before schema validation. */
  datatype CreateInput = CreateInput(
    title: string,
    description: string,
    createdById: string,
    datePosted: string,
    images: Option<seq<string>>)

  /** How a procedure call fails. */
  datatype Error =
    | Unauthorized              // no session on a protected procedure
    | BadRequest(issues: seq<Issue>)  // the input schema rejected the input
    | NotFound                  // the row to delete does not exist
    | WriteFailed               // the store rejected the image batch

  // ---------------------------------------------------------------------------
  // hello

  /** The greeting of the public `hello` query. */
  function Hello(text: string): (greeting: string)
    ensures |greeting| == |text| + 6
    ensures greeting[..6] == "Hello " && greeting[6..] == text
  {
    "Hello " + text
  }

  // ---------------------------------------------------------------------------
  // The input schema of create

  const TitleChecks: seq<Check> := Between(3, 380)
  const DescriptionChecks: seq<Check> := Between(3, 1000)
  const DatePostedChecks: seq<Check> := Between(3, 30)

  /** One issue per element of `urls` that the `.url()` predicate rejects, in order. */
  function UrlIssues(urls: seq<string>, isUrl: string -> bool): (r: seq<Issue>)
    ensures r == [] <==> forall i :: 0 <= i < |urls| ==> isUrl(urls[i])
    ensures forall k :: 0 <= k < |r| ==> r[k].field == "images"
  {
    if urls == [] then []
    else
      var last := |urls| - 1;
      UrlIssues(urls[..last], isUrl)
      + (if isUrl(urls[last]) then [] else [Issue("images", InvalidUrl(last))])
  }

  /** The issues the `create` input schema reports, in field order. */
  function CreateIssues(input: CreateInput, isCuid: string -> bool, isUrl: string -> bool): (r: seq<Issue>)
    ensures r == [] <==> AcceptedInput(input, isCuid, isUrl)
  {
    BetweenPassesIff("title", 3, 380, input.title);
    BetweenPassesIff("description", 3, 1000, input.description);
    BetweenPassesIff("datePosted", 3, 30, input.datePosted);
    StringIssues("title", TitleChecks, input.title)
    + StringIssues("description", DescriptionChecks, input.description)
    + (if isCuid(input.createdById) then [] else [Issue("createdById", InvalidCuid)])
    + StringIssues("datePosted", DatePostedChecks, input.datePosted)
    + (match input.images
       case None => []
       case Some(urls) => UrlIssues(urls, isUrl))
  }

  /** The conditions under which the `create` input schema accepts. */
  ghost predicate AcceptedInput(input: CreateInput, isCuid: string -> bool, isUrl: string -> bool)
  {
    && 3 <= |input.title| <= 380
    && 3 <= |input.description| <= 1000
    && isCuid(input.createdById)
    && 3 <= |input.datePosted| <= 30
    && (input.images.Some? ==> forall i :: 0 <= i < |input.images.value| ==> isUrl(input.images.value[i]))
  }

  /**
    Parsing the `create` input: the value is passed on unchanged exactly when
    every field satisfies its schema; otherwise the issues are reported.
    `isCuid` and `isUrl` stand for zod's `.cuid()` and `.url()` checks.
   */
  function ParseCreateInput(input: CreateInput, isCuid: string -> bool, isUrl: string -> bool)
    : (r: Result<CreateInput, seq<Issue>>)
    ensures r.Success? <==> AcceptedInput(input, isCuid, isUrl)
    ensures r.Success? ==> r.value == input
    ensures r.Failure? ==> r.error != []
  {
    var issues := CreateIssues(input, isCuid, isUrl);
    if issues == [] then Success(input) else Failure(issues)
  }

  // ---------------------------------------------------------------------------
  // The image batch of create

  /** The image rows `createMany` inserts for `urls`, ids allocated from `firstId` in order. */
  function ImageRows(urls: seq<string>, postId: nat, firstId: nat): (r: seq<ImageRow>)
    ensures |r| == |urls|
    ensures forall i :: 0 <= i < |r| ==> r[i] == ImageRow(firstId + i, urls[i], postId)
  {
    if urls == [] then []
    else [ImageRow(firstId, urls[0], postId)] + ImageRows(urls[1..], postId, firstId + 1)
  }

  // ---------------------------------------------------------------------------
  // Queries over the rows

  predicate PostIdsIncreasing(ps: seq<Post>)
  {
    forall i, j :: 0 <= i < j < |ps| ==> ps[i].id < ps[j].id
  }

  predicate PostIdsBelow(ps: seq<Post>, bound: nat)
  {
    forall i :: 0 <= i < |ps| ==> ps[i].id < bound
  }

  predicate ImageIdsIncreasing(rows: seq<ImageRow>)
  {
    forall i, j :: 0 <= i < j < |rows| ==> rows[i].id < rows[j].id
  }

  /** Posts ordered by `createdAt`, newest first. */
  predicate NewestFirst(ps: seq<Post>)
  {
    forall i, j :: 0 <= i < j < |ps| ==> ps[i].createdAt >= ps[j].createdAt
  }

  /** The image rows belonging to post `postId`, in table order. */
  function ImagesOf(rows: seq<ImageRow>, postId: nat): (r: seq<ImageRow>)
    ensures forall x :: x in r <==> x in rows && x.postId == postId
    ensures forall x :: multiset(r)[x] == if x.postId == postId then multiset(rows)[x] else 0
    ensures |r| <= |rows|
  {
    if rows == [] then []
    else
      assert rows == [rows[0]] + rows[1..];
      (if rows[0].postId == postId then [rows[0]] else []) + ImagesOf(rows[1..], postId)
  }

  /** Puts `p` into a newest-first sequence. */
  function InsertByDate(p: Post, ps: seq<Post>): (r: seq<Post>)
    requires NewestFirst(ps)
    ensures NewestFirst(r)
    ensures multiset(r) == multiset(ps) + multiset{p}
  {
    if ps == [] || p.createdAt >= ps[0].createdAt then [p] + ps
    else
      var rest := InsertByDate(p, ps[1..]);
      assert ps == [ps[0]] + ps[1..];
      InsertedFrom(p, ps[1..], rest);
      HeadIsNewest(ps);
      HeadDominates(ps[0], rest);
      [ps[0]] + rest
  }

  /** What an insertion holds is the inserted post or an element of the sequence. */
  lemma InsertedFrom(p: Post, ps: seq<Post>, r: seq<Post>)
    requires multiset(r) == multiset(ps) + multiset{p}
    ensures forall x :: x in r ==> x == p || x in ps
  {
    forall x | x in r ensures x == p || x in ps {
      assert x in multiset(r);
    }
  }

  /** The first post of a newest-first sequence is no older than the rest. */
  lemma HeadIsNewest(ps: seq<Post>)
    requires NewestFirst(ps) && ps != []
    ensures forall x :: x in ps[1..] ==> x.createdAt <= ps[0].createdAt
  {
    forall x | x in ps[1..] ensures x.createdAt <= ps[0].createdAt {
      var m :| 0 <= m < |ps[1..]| && ps[1..][m] == x;
      assert ps[m + 1] == x;
    }
  }

  /** A post no older than anything in a newest-first sequence may lead it. */
  lemma HeadDominates(h: Post, rest: seq<Post>)
    requires NewestFirst(rest)
    requires forall x :: x in rest ==> x.createdAt <= h.createdAt
    ensures NewestFirst([h] + rest)
  {
    var r := [h] + rest;
    forall i, j | 0 <= i < j < |r| ensures r[i].createdAt >= r[j].createdAt {
      assert r[j] == rest[j - 1];
      if i > 0 {
        assert r[i] == rest[i - 1];
      } else {
        assert rest[j - 1] in rest;
      }
    }
  }

  /** The order of the `orderBy: { createdAt: 'desc' }` query. */
  function SortNewestFirst(ps: seq<Post>): (r: seq<Post>)
    ensures NewestFirst(r)
    ensures multiset(r) == multiset(ps)
  {
    if ps == [] then []
    else
      assert ps == [ps[0]] + ps[1..];
      InsertByDate(ps[0], SortNewestFirst(ps[1..]))
  }

  /** Each post joined with its images (the `include: { images: true }` of the query). */
  function WithImages(ps: seq<Post>, rows: seq<ImageRow>): (r: seq<PostWithImages>)
    ensures |r| == |ps|
    ensures forall k :: 0 <= k < |r| ==> r[k] == PostWithImages(ps[k], ImagesOf(rows, ps[k].id))
  {
    if ps == [] then []
    else [PostWithImages(ps[0], ImagesOf(rows, ps[0].id))] + WithImages(ps[1..], rows)
  }

  /** The posts of `ps` other than the one with id `id`, in order. */
  function WithoutPost(ps: seq<Post>, id: int): (r: seq<Post>)
    ensures |r| <= |ps|
  {
    if ps == [] then []
    else (if ps[0].id == id then [] else [ps[0]]) + WithoutPost(ps[1..], id)
  }

  /** The posts left after removing by id are exactly those with another id. */
  lemma {:induction false} WithoutPostMembers(ps: seq<Post>, id: int)
    ensures forall p :: p in WithoutPost(ps, id) <==> p in ps && p.id != id
  {
    if ps != [] {
      WithoutPostMembers(ps[1..], id);
      assert ps == [ps[0]] + ps[1..];
    }
  }

  /** With unique ids, removing by id removes exactly the one row, keeping the order of the others. */
  lemma {:induction false} WithoutPostRemovesOne(ps: seq<Post>, k: nat)
    requires PostIdsIncreasing(ps) && k < |ps|
    ensures WithoutPost(ps, ps[k].id) == ps[..k] + ps[k + 1..]
  {
    if k == 0 {
      WithoutPostRemovesFirst(ps);
    } else {
      var id := ps[k].id;
      var tail := ps[1..];
      TailIdsIncreasing(ps);
      assert ps[0].id != id;
      assert tail[k - 1] == ps[k];
      WithoutPostRemovesOne(tail, k - 1);
      assert tail[..k - 1] == ps[1..k];
      assert tail[k..] == ps[k + 1..];
      calc {
        WithoutPost(ps, id);
        [ps[0]] + WithoutPost(tail, id);
        [ps[0]] + (ps[1..k] + ps[k + 1..]);
        ([ps[0]] + ps[1..k]) + ps[k + 1..];
        { assert ps[..k] == [ps[0]] + ps[1..k]; }
        ps[..k] + ps[k + 1..];
      }
    }
  }

  /** With unique ids, removing the first row's id removes just that row. */
  lemma WithoutPostRemovesFirst(ps: seq<Post>)
    requires PostIdsIncreasing(ps) && ps != []
    ensures WithoutPost(ps, ps[0].id) == ps[1..]
  {
    TailIdsIncreasing(ps);
    WithoutPostKeepsAll(ps[1..], ps[0].id);
  }

  /** The rows after the first carry increasing ids above the first one's. */
  lemma TailIdsIncreasing(ps: seq<Post>)
    requires PostIdsIncreasing(ps) && ps != []
    ensures PostIdsIncreasing(ps[1..])
    ensures forall i :: 0 <= i < |ps[1..]| ==> ps[1..][i].id > ps[0].id
  {
    var tail := ps[1..];
    forall i | 0 <= i < |tail| ensures tail[i].id > ps[0].id {
      assert tail[i] == ps[i + 1];
    }
    forall i, j | 0 <= i < j < |tail| ensures tail[i].id < tail[j].id {
      assert tail[i] == ps[i + 1] && tail[j] == ps[j + 1];
    }
  }

  /** Removing an id no row carries changes nothing. */
  lemma {:induction false} WithoutPostKeepsAll(ps: seq<Post>, id: int)
    requires forall i :: 0 <= i < |ps| ==> ps[i].id != id
    ensures WithoutPost(ps, id) == ps
  {
    if ps != [] {
      WithoutPostKeepsAll(ps[1..], id);
    }
  }

  /** Whether some row has id `id`. */
  predicate HasPost(ps: seq<Post>, id: int)
  {
    exists i :: 0 <= i < |ps| && ps[i].id == id
  }

  /** No row carries an id that `HasPost` does not find. */
  lemma AbsentIdMatchesNothing(ps: seq<Post>, id: int)
    requires !HasPost(ps, id)
    ensures forall p :: p in ps ==> p.id != id
  {
    forall p | p in ps ensures p.id != id {
      var i :| 0 <= i < |ps| && ps[i] == p;
    }
  }

  /** Taking one row out keeps the ids increasing and below the counter. */
  lemma RemovalKeepsIds(ps: seq<Post>, k: nat, bound: nat)
    requires PostIdsIncreasing(ps) && k < |ps|
    requires PostIdsBelow(ps, bound)
    ensures PostIdsIncreasing(ps[..k] + ps[k + 1..])
    ensures PostIdsBelow(ps[..k] + ps[k + 1..], bound)
  {
    var r := ps[..k] + ps[k + 1..];
    forall i | 0 <= i < |r| ensures r[i].id < bound {
      Sequences.RemovedAt(ps, k, i);
    }
    forall i, j | 0 <= i < j < |r| ensures r[i].id < r[j].id {
      Sequences.RemovedAt(ps, k, i);
      Sequences.RemovedAt(ps, k, j);
    }
  }

  // ---------------------------------------------------------------------------
  // The store

  /** The post and image tables, with their auto-increment counters. */
  class PostStore {
    var posts: seq<Post>
    var images: seq<ImageRow>
    var nextPostId: nat
    var nextImageId: nat

    /** Ids are allocated in increasing order and never reused. */
    ghost predicate Valid()
      reads this
    {
      && PostIdsIncreasing(posts)
      && PostIdsBelow(posts, nextPostId)
      && ImageIdsIncreasing(images)
      && (forall i :: 0 <= i < |images| ==> images[i].id < nextImageId)
    }

    constructor ()
      ensures Valid()
      ensures posts == [] && images == []
    {
      posts, images := [], [];
      nextPostId, nextImageId := 1, 1;
    }

    /** `db.post.create`: inserts one post row under a fresh id. */
    method InsertPost(title: string, description: string, couplesId: string,
                      createdById: string, datePosted: string, now: int)
      returns (id: nat)
      requires Valid()
      modifies this
      ensures Valid()
      ensures id == old(nextPostId) && nextPostId == id + 1
      ensures posts == old(posts) + [Post(id, title, description, couplesId, createdById, datePosted, now)]
      ensures images == old(images) && nextImageId == old(nextImageId)
    {
      id := nextPostId;
      posts := posts + [Post(id, title, description, couplesId, createdById, datePosted, now)];
      nextPostId := nextPostId + 1;
    }

    /** `db.image.createMany`: inserts one image row per url, all owned by `postId`. */
    method InsertImages(urls: seq<string>, postId: nat)
      requires Valid()
      modifies this
      ensures Valid()
      ensures images == old(images) + ImageRows(urls, postId, old(nextImageId))
      ensures nextImageId == old(nextImageId) + |urls|
      ensures posts == old(posts) && nextPostId == old(nextPostId)
    {
      var rows := ImageRows(urls, postId, nextImageId);
      images := images + rows;
      nextImageId := nextImageId + |urls|;
    }

    /**
      The protected `create` mutation. Without a session nothing happens; an input
      the schema rejects changes nothing; otherwise the post row is written with
      `couplesId` taken from the session, and then, as a separate second write and
      only when urls are supplied, one image row per url. `batchAccepted` says
      whether the store accepts that second write: when it does not, the post row
      stays without images (the two writes are not one transaction).
     */
    method Create(session: Option<Session>, input: CreateInput,
                  isCuid: string -> bool, isUrl: string -> bool,
                  now: int, batchAccepted: bool)
      returns (r: Result<(), Error>)
      requires Valid()
      modifies this
      ensures Valid()
      ensures session.None? ==> r == Failure(Unauthorized)
      ensures session.Some? && !AcceptedInput(input, isCuid, isUrl) ==>
                r == Failure(BadRequest(CreateIssues(input, isCuid, isUrl)))
      ensures r.Failure? && r.error != WriteFailed ==>
                posts == old(posts) && images == old(images)
                && nextPostId == old(nextPostId) && nextImageId == old(nextImageId)
      ensures session.Some? && AcceptedInput(input, isCuid, isUrl) ==>
                && posts == old(posts) + [Post(old(nextPostId), input.title, input.description,
                                               session.value.userId, input.createdById,
                                               input.datePosted, now)]
                && nextPostId == old(nextPostId) + 1
      ensures session.Some? && AcceptedInput(input, isCuid, isUrl) ==>
                var urls := if input.images.Some? then input.images.value else [];
                if urls == [] then
                  r == Success(()) && images == old(images) && nextImageId == old(nextImageId)
                else if batchAccepted then
                  && r == Success(())
                  && images == old(images) + ImageRows(urls, old(nextPostId), old(nextImageId))
                  && nextImageId == old(nextImageId) + |urls|
                else
                  r == Failure(WriteFailed) && images == old(images) && nextImageId == old(nextImageId)
    {
      if session.None? {
        return Failure(Unauthorized);
      }
      var parsed := ParseCreateInput(input, isCuid, isUrl);
      if parsed.Failure? {
        return Failure(BadRequest(parsed.error));
      }
      var id := InsertPost(input.title, input.description, session.value.userId,
                           input.createdById, input.datePosted, now);
      if input.images.Some? && |input.images.value| > 0 {
        if !batchAccepted {
          return Failure(WriteFailed);
        }
        InsertImages(input.images.value, id);
      }
      r := Success(());
    }

    /**
      The public `getUserPosts` query: every post exactly once, each with its
      images, newest first.
     */
    method GetUserPosts() returns (r: seq<PostWithImages>)
      ensures |r| == |posts|
      ensures NewestFirst(seq(|r|, k requires 0 <= k < |r| => r[k].post))
      ensures multiset(seq(|r|, k requires 0 <= k < |r| => r[k].post)) == multiset(posts)
      ensures forall k :: 0 <= k < |r| ==> r[k].images == ImagesOf(images, r[k].post.id)
    {
      var sorted := SortNewestFirst(posts);
      assert |multiset(sorted)| == |multiset(posts)|;
      r := WithImages(sorted, images);
      assert seq(|r|, k requires 0 <= k < |r| => r[k].post) == sorted;
    }

    /**
      The public `deletePosts` mutation: removes the post with id `id` and keeps
      every other post, in order; a missing id is reported and changes nothing.
      Image rows are left as they are.
     */
    method DeletePost(id: int) returns (r: Result<(), Error>)
      requires Valid()
      modifies this
      ensures Valid()
      ensures r.Success? <==> HasPost(old(posts), id)
      ensures r.Failure? ==> r.error == NotFound && posts == old(posts)
      ensures r.Success? ==> exists k :: 0 <= k < |old(posts)| && old(posts)[k].id == id
                                        && posts == old(posts)[..k] + old(posts)[k + 1..]
      ensures forall p :: p in posts <==> p in old(posts) && p.id != id
      ensures images == old(images) && nextPostId == old(nextPostId) && nextImageId == old(nextImageId)
    {
      if !HasPost(posts, id) {
        AbsentIdMatchesNothing(posts, id);
        return Failure(NotFound);
      }
      var k :| 0 <= k < |posts| && posts[k].id == id;
      WithoutPostRemovesOne(posts, k);
      WithoutPostMembers(posts, id);
      RemovalKeepsIds(posts, k, nextPostId);
      posts := WithoutPost(posts, id);
      r := Success(());
    }
  }
}

/**
 * The post routes: an in-memory posts collection (`PostTable`) with the
 * handlers that find, check, mutate and save a post, and the read-only
 * handlers (list, sorted list, comment views) as functions of the stored
 * posts. Every handler reports one `Outcome`: the 404s are `PostNotFound` and
 * `CommentNotFound`, the 403 is `Forbidden`, and every exception caught by a
 * handler's `catch` block (the 500) is `Fault`.
 */
module HomeRoute {
  import opened Js
  import opened Schema

  datatype Outcome<+T> = Ok(value: T) | PostNotFound | CommentNotFound | Forbidden | Fault

  // ---------------------------------------------------------------------------
  // Request inputs

  /** `req.user`, when something has set it; its `id` is any value, `undefined` and `null` included. */
  datatype Requester = Requester(id: Value)

  /** `req.file`, the upload the multipart receiver stored. */
  datatype UploadedFile = UploadedFile(path: string)

  /** `req.file ? req.file.path : null` */
  function ImageUrl(file: Option<UploadedFile>): (url: Option<string>)
    ensures url.Some? <==> file.Some?
    ensures url.Some? ==> url.value == file.value.path
  {
    match file
    case None => None
    case Some(f) => Some(f.path)
  }

  // ---------------------------------------------------------------------------
  // Ownership

  /** `post.user`: the post schema declares no `user` path, so the read gives `undefined`. */
  function PostOwner(p: Post): Value {
    Undefined
  }

  /**
   * `if (post.user !== req.user.id)`: without `req.user` the read of `.id`
   * throws; otherwise the strict comparison fails unless `req.user.id` is
   * `undefined` too (a `null` id is refused).
   */
  function OwnershipCheck(p: Post, requester: Option<Requester>): (r: Outcome<()>)
    ensures r == Fault <==> requester.None?
    ensures r == Forbidden <==> requester.Some? && requester.value.id != Undefined
    ensures r == Ok(()) <==> requester == Some(Requester(Undefined))
  {
    match requester
    case None => Fault
    case Some(user) => if PostOwner(p) != user.id then Forbidden else Ok(())
  }

  // ---------------------------------------------------------------------------
  // Edit

  /** `post.content = content || post.content; post.category = category || post.category` */
  function EditedPost(p: Post, content: Option<string>, category: Option<string>): (q: Post)
    ensures q.(content := p.content, category := p.category) == p
    ensures Truthy(OfString(content)) ==> q.content == content
    ensures !Truthy(OfString(content)) ==> q.content == p.content
    ensures Truthy(OfString(category)) ==> q.category == category
    ensures !Truthy(OfString(category)) ==> q.category == p.category
    ensures PostValid(q) <==> PostValid(p)
  {
    p.(content := Or(content, p.content), category := Or(category, p.category))
  }

  // ---------------------------------------------------------------------------
  // Comment lookup

  /** `post.comments.id(commentId)`: the position of the first comment with that id. */
  function FindComment(comments: seq<Comment>, id: ObjectId): (r: Option<nat>)
    ensures r.Some? ==> r.value < |comments| && comments[r.value].id == id
    ensures r.Some? ==> forall j :: 0 <= j < r.value ==> comments[j].id != id
    ensures r.None? <==> forall j :: 0 <= j < |comments| ==> comments[j].id != id
  {
    if comments == [] then None
    else if comments[0].id == id then Some(0)
    else match FindComment(comments[1..], id)
      case None => None
      case Some(k) => Some(k + 1)
  }

  // ---------------------------------------------------------------------------
  // The stored collection and its natural order

  predicate Distinct(ids: seq<ObjectId>) {
    forall i, j :: 0 <= i < j < |ids| ==> ids[i] != ids[j]
  }

  /**
   * `order` lists every stored post exactly once and nothing else, and each
   * post is stored under its own id.
   */
  predicate Indexed(posts: map<ObjectId, Post>, order: seq<ObjectId>) {
    && (forall i :: 0 <= i < |order| ==> order[i] in posts)
    && (forall id :: id in posts ==> id in order)
    && Distinct(order)
    && (forall id :: id in posts ==> posts[id].id == id)
  }

  /** The order with one id taken out. */
  function Without(ids: seq<ObjectId>, x: ObjectId): (r: seq<ObjectId>)
    ensures forall y :: y in r <==> y in ids && y != x
    ensures Distinct(ids) ==> Distinct(r)
  {
    if ids == [] then []
    else
      DistinctTail(ids);
      if ids[0] == x then Without(ids[1..], x)
      else
        var rest := Without(ids[1..], x);
        DistinctCons(ids[0], rest);
        [ids[0]] + rest
  }

  lemma DistinctTail(ids: seq<ObjectId>)
    requires ids != []
    ensures Distinct(ids) ==> Distinct(ids[1..]) && ids[0] !in ids[1..]
  {
  }

  lemma DistinctCons(x: ObjectId, ids: seq<ObjectId>)
    ensures Distinct(ids) && x !in ids ==> Distinct([x] + ids)
  {
  }

  function Elements(ids: seq<ObjectId>): set<ObjectId> {
    set x | x in ids
  }

  lemma {:induction false} DistinctCount(ids: seq<ObjectId>)
    requires Distinct(ids)
    ensures |Elements(ids)| == |ids|
  {
    if ids != [] {
      var rest := ids[1..];
      DistinctTail(ids);
      DistinctCount(rest);
      assert Elements(ids) == {ids[0]} + Elements(rest) by {
        assert ids == [ids[0]] + rest;
      }
    }
  }

  /** The stored posts in the collection's natural order, as `POST.find()` returns them. */
  function ListAll(posts: map<ObjectId, Post>, order: seq<ObjectId>): (r: seq<Post>)
    requires forall i :: 0 <= i < |order| ==> order[i] in posts
    ensures |r| == |order|
    ensures forall i :: 0 <= i < |order| ==> r[i] == posts[order[i]]
  {
    seq(|order|, i requires 0 <= i < |order| => posts[order[i]])
  }

  /** Listing returns every stored post, once each, and nothing else. */
  lemma ListAllIsTable(posts: map<ObjectId, Post>, order: seq<ObjectId>)
    requires Indexed(posts, order)
    ensures |ListAll(posts, order)| == |posts|
    ensures forall id :: id in posts ==> posts[id] in ListAll(posts, order)
    ensures forall p :: p in ListAll(posts, order) ==> p.id in posts && posts[p.id] == p
  {
    var all := ListAll(posts, order);
    DistinctCount(order);
    assert Elements(order) == posts.Keys;
    forall id | id in posts ensures posts[id] in all {
      var i :| 0 <= i < |order| && order[i] == id;
      assert all[i] == posts[id];
    }
  }

  // ---------------------------------------------------------------------------
  // Sorted listing

  /** The two sort criteria `{ upvotes: -1 }` and `{ createdAt: -1 }`. */
  datatype SortKey = UpvotesDesc | CreatedAtDesc

  /** `sortBy === 'upvotes'` selects the upvotes key; every other value the `createdAt` key. */
  function SortKeyFor(sortBy: Option<string>): (k: SortKey)
    ensures k == UpvotesDesc <==> sortBy == Some("upvotes")
  {
    if sortBy == Some("upvotes") then UpvotesDesc else CreatedAtDesc
  }

  /** The value a post holds under a sort key; posts have no `createdAt` path, so it is missing. */
  function KeyOf(p: Post, k: SortKey): Option<int> {
    match k
    case UpvotesDesc => Some(p.upvotes)
    case CreatedAtDesc => None
  }

  /** Descending order on a possibly missing key: missing values come last and tie. */
  predicate AtLeast(a: Option<int>, b: Option<int>) {
    match (a, b)
    case (Some(x), Some(y)) => x >= y
    case (Some(_), None) => true
    case (None, Some(_)) => false
    case (None, None) => true
  }

  predicate SortedBy(s: seq<Post>, k: SortKey) {
    forall i, j :: 0 <= i < j < |s| ==> AtLeast(KeyOf(s[i], k), KeyOf(s[j], k))
  }

  lemma AtLeastTransitive(a: Option<int>, b: Option<int>, c: Option<int>)
    requires AtLeast(a, b) && AtLeast(b, c)
    ensures AtLeast(a, c)
  {
  }

  /** A post that ranks at least as high as every post of a sorted listing can head it. */
  lemma PrependSorted(x: Post, s: seq<Post>, k: SortKey)
    requires SortedBy(s, k)
    requires forall j :: 0 <= j < |s| ==> AtLeast(KeyOf(x, k), KeyOf(s[j], k))
    ensures SortedBy([x] + s, k)
  {
  }

  function InsertByKey(p: Post, s: seq<Post>, k: SortKey): (r: seq<Post>)
    requires SortedBy(s, k)
    ensures SortedBy(r, k)
    ensures multiset(r) == multiset(s) + multiset{p}
  {
    if s == [] then [p]
    else if AtLeast(KeyOf(p, k), KeyOf(s[0], k)) then
      assert forall j :: 0 <= j < |s| ==> AtLeast(KeyOf(p, k), KeyOf(s[j], k)) by {
        forall j | 0 <= j < |s| ensures AtLeast(KeyOf(p, k), KeyOf(s[j], k)) {
          if j > 0 {
            AtLeastTransitive(KeyOf(p, k), KeyOf(s[0], k), KeyOf(s[j], k));
          }
        }
      }
      PrependSorted(p, s, k);
      [p] + s
    else
      var tail := s[1..];
      assert SortedBy(tail, k) by {
        forall i, j | 0 <= i < j < |tail| ensures AtLeast(KeyOf(tail[i], k), KeyOf(tail[j], k)) {
          assert tail[i] == s[i + 1] && tail[j] == s[j + 1];
        }
      }
      var rest := InsertByKey(p, tail, k);
      assert forall j :: 0 <= j < |rest| ==> AtLeast(KeyOf(s[0], k), KeyOf(rest[j], k)) by {
        forall j | 0 <= j < |rest| ensures AtLeast(KeyOf(s[0], k), KeyOf(rest[j], k)) {
          assert rest[j] in multiset(rest);
          if rest[j] != p {
            var m :| 0 <= m < |tail| && tail[m] == rest[j];
            assert tail[m] == s[m + 1];
          }
        }
      }
      PrependSorted(s[0], rest, k);
      assert s == [s[0]] + tail;
      [s[0]] + rest
  }

  /** The database's sort, as a stable insertion sort on the key. */
  function Sort(s: seq<Post>, k: SortKey): (r: seq<Post>)
    ensures SortedBy(r, k)
    ensures multiset(r) == multiset(s)
  {
    if s == [] then []
    else
      assert s == [s[0]] + s[1..];
      InsertByKey(s[0], Sort(s[1..], k), k)
  }

  /** `POST.find().sort(sortCriteria)` */
  function SortedPosts(posts: map<ObjectId, Post>, order: seq<ObjectId>, sortBy: Option<string>): (r: seq<Post>)
    requires forall i :: 0 <= i < |order| ==> order[i] in posts
    ensures SortedBy(r, SortKeyFor(sortBy))
    ensures multiset(r) == multiset(ListAll(posts, order))
  {
    Sort(ListAll(posts, order), SortKeyFor(sortBy))
  }

  /** The sorted listing holds every stored post, once each, and nothing else. */
  lemma SortedPostsIsTable(posts: map<ObjectId, Post>, order: seq<ObjectId>, sortBy: Option<string>)
    requires Indexed(posts, order)
    ensures |SortedPosts(posts, order, sortBy)| == |posts|
    ensures forall id :: id in posts ==> posts[id] in SortedPosts(posts, order, sortBy)
    ensures forall p :: p in SortedPosts(posts, order, sortBy) ==> p.id in posts && posts[p.id] == p
  {
    var all := ListAll(posts, order);
    var sorted := SortedPosts(posts, order, sortBy);
    ListAllIsTable(posts, order);
    assert |sorted| == |multiset(sorted)| == |multiset(all)| == |all|;
    forall p ensures p in sorted <==> p in all {
      assert p in sorted <==> p in multiset(sorted);
      assert p in all <==> p in multiset(all);
    }
  }

  /** With `sortBy == "upvotes"` the listing never has fewer upvotes before more. */
  lemma UpvotesListingDescends(posts: map<ObjectId, Post>, order: seq<ObjectId>)
    requires forall i :: 0 <= i < |order| ==> order[i] in posts
    ensures forall i, j :: 0 <= i < j < |SortedPosts(posts, order, Some("upvotes"))| ==>
      SortedPosts(posts, order, Some("upvotes"))[i].upvotes >= SortedPosts(posts, order, Some("upvotes"))[j].upvotes
  {
  }

  /** Every post lacks `createdAt`, so under that key every order is sorted: no order is promised. */
  lemma CreatedAtOrdersNothing(s: seq<Post>)
    ensures SortedBy(s, CreatedAtDesc)
  {
  }

  // ---------------------------------------------------------------------------
  // Comment views

  /** `{ name, picture }` of a populated author; fields the author lacks are absent. */
  datatype AuthorView = AuthorView(name: Option<string>, picture: Option<string>)

  datatype ReplyView = ReplyView(id: ObjectId, content: Option<string>, user: AuthorView, createdAt: Time)

  datatype CommentView = CommentView(
    id: ObjectId,
    content: Option<string>,
    user: AuthorView,
    createdAt: Time,
    replies: seq<ReplyView>)

  /**
   * What populating `comments.user` resolves an author id to; an id missing
   * from the map is a reference population leaves as `null`.
   */
  type Authors = map<ObjectId, AuthorView>

  /** Reply authors are never populated: `reply.user` is a bare id without `name` or `picture`. */
  const UNPOPULATED := AuthorView(None, None)

  /** A reply's view copies its id, content and `createdAt`; the author shows nothing. */
  predicate ReplyShown(v: ReplyView, r: Reply) {
    v.id == r.id && v.content == r.content && v.createdAt == r.createdAt && v.user == UNPOPULATED
  }

  /** `reply.user.name` reads a property of `undefined`, and throws, only when the reply has no user. */
  predicate ReplyViewable(r: Reply) {
    r.user.Some?
  }

  /** `comment.user.name` throws when the author is unresolved; then so do the comment's replies. */
  predicate CommentViewable(c: Comment, authors: Authors) {
    && c.user.Some? && c.user.value in authors
    && forall j :: 0 <= j < |c.replies| ==> ReplyViewable(c.replies[j])
  }

  predicate CommentShown(v: CommentView, c: Comment, authors: Authors) {
    && v.id == c.id && v.content == c.content && v.createdAt == c.createdAt
    && c.user.Some? && c.user.value in authors && v.user == authors[c.user.value]
    && |v.replies| == |c.replies|
    && forall j :: 0 <= j < |c.replies| ==> ReplyShown(v.replies[j], c.replies[j])
  }

  /** `comment.replies.map(reply => ({ ... }))` */
  function ViewReplies(replies: seq<Reply>): (r: Outcome<seq<ReplyView>>)
    ensures r.Ok? || r == Fault
    ensures r.Ok? <==> forall j :: 0 <= j < |replies| ==> ReplyViewable(replies[j])
    ensures r.Ok? ==> |r.value| == |replies|
    ensures r.Ok? ==> forall j :: 0 <= j < |replies| ==> ReplyShown(r.value[j], replies[j])
  {
    if replies == [] then Ok([])
    else if replies[0].user.None? then Fault
    else
      var head := ReplyView(replies[0].id, replies[0].content, UNPOPULATED, replies[0].createdAt);
      match ViewReplies(replies[1..])
      case Ok(tail) => Ok([head] + tail)
      case _ => Fault
  }

  /** `populatedComments.comments.map(comment => ({ ... }))` */
  function ViewComments(comments: seq<Comment>, authors: Authors): (r: Outcome<seq<CommentView>>)
    ensures r.Ok? || r == Fault
    ensures r.Ok? <==> forall i :: 0 <= i < |comments| ==> CommentViewable(comments[i], authors)
    ensures r.Ok? ==> |r.value| == |comments|
    ensures r.Ok? ==> forall i :: 0 <= i < |comments| ==> CommentShown(r.value[i], comments[i], authors)
  {
    if comments == [] then Ok([])
    else
      var c := comments[0];
      if c.user.None? || c.user.value !in authors then Fault
      else match ViewReplies(c.replies)
        case Ok(replies) =>
          var head := CommentView(c.id, c.content, authors[c.user.value], c.createdAt, replies);
          (match ViewComments(comments[1..], authors)
           case Ok(tail) => Ok([head] + tail)
           case _ => Fault)
        case _ => Fault
  }

  /** The get-comments handler over the stored posts. */
  function GetComments(posts: map<ObjectId, Post>, postId: ObjectId, authors: Authors): (r: Outcome<seq<CommentView>>)
    ensures r.Ok? || r == PostNotFound || r == Fault
    ensures r == PostNotFound <==> postId !in posts
    ensures r.Ok? <==> (postId in posts &&
      forall i :: 0 <= i < |posts[postId].comments| ==> CommentViewable(posts[postId].comments[i], authors))
    ensures r.Ok? ==> |r.value| == |posts[postId].comments|
    ensures r.Ok? ==> forall i :: 0 <= i < |r.value| ==>
      CommentShown(r.value[i], posts[postId].comments[i], authors)
  {
    if postId !in posts then PostNotFound
    else ViewComments(posts[postId].comments, authors)
  }

  /** For a valid post the views fail exactly when some comment author does not resolve. */
  lemma ValidPostViewsIffAuthorsResolve(p: Post, authors: Authors)
    requires PostValid(p)
    ensures ViewComments(p.comments, authors).Ok? <==>
      forall i :: 0 <= i < |p.comments| ==> p.comments[i].user.value in authors
  {
  }

  // ---------------------------------------------------------------------------
  // The collection and the handlers that change it

  class PostTable {
    var posts: map<ObjectId, Post>
    /** The collection's natural order, in which `find()` returns documents. */
    var order: seq<ObjectId>

    /** Only validated documents were ever saved. */
    ghost predicate Valid()
      reads this
    {
      Indexed(posts, order) && forall id :: id in posts ==> PostValid(posts[id])
    }

    constructor ()
      ensures Valid() && posts == map[] && order == []
    {
      posts := map[];
      order := [];
    }

    /** `post.save()` on a document read from the collection: validate, then write back. */
    method Save(p: Post) returns (ok: bool)
      requires Valid() && p.id in posts
      modifies this
      ensures Valid()
      ensures ok == PostValid(p)
      ensures posts == if ok then old(posts)[p.id := p] else old(posts)
      ensures order == old(order)
    {
      ok := PostValid(p);
      if ok {
        posts := posts[p.id := p];
      }
    }

    /** `newPost.save()`: validate, then insert; an id already taken is a duplicate-key error. */
    method Insert(p: Post) returns (ok: bool)
      requires Valid()
      modifies this
      ensures Valid()
      ensures ok == (PostValid(p) && p.id !in old(posts))
      ensures posts == if ok then old(posts)[p.id := p] else old(posts)
      ensures order == if ok then old(order) + [p.id] else old(order)
    {
      ok := PostValid(p) && p.id !in posts;
      if ok {
        posts := posts[p.id := p];
        order := order + [p.id];
      }
    }

    /** POST `/`: `id` is the identifier the new document is given. */
    method Create(id: ObjectId, content: Option<string>, category: Option<string>, file: Option<UploadedFile>, now: Time)
      returns (r: Outcome<Post>)
      requires Valid()
      modifies this
      ensures Valid()
      ensures id in old(posts) ==> r == Fault && posts == old(posts) && order == old(order)
      ensures id !in old(posts) ==>
        && r == Ok(NewPost(id, ImageUrl(file), content, category, now))
        && posts == old(posts)[id := r.value]
        && order == old(order) + [id]
    {
      var post := NewPost(id, ImageUrl(file), content, category, now);
      var ok := Insert(post);
      r := if ok then Ok(post) else Fault;
    }

    /** PUT `/:id` */
    method Edit(id: ObjectId, requester: Option<Requester>, content: Option<string>, category: Option<string>)
      returns (r: Outcome<Post>)
      requires Valid()
      modifies this
      ensures Valid()
      ensures order == old(order)
      ensures id !in old(posts) ==> r == PostNotFound
      ensures id in old(posts) && requester.None? ==> r == Fault
      ensures id in old(posts) && requester.Some? && requester.value.id != Undefined ==> r == Forbidden
      ensures r.Ok? <==> id in old(posts) && requester == Some(Requester(Undefined))
      ensures r.Ok? ==> r.value == EditedPost(old(posts)[id], content, category) && posts == old(posts)[id := r.value]
      ensures !r.Ok? ==> posts == old(posts)
    {
      if id !in posts {
        return PostNotFound;
      }
      var post := posts[id];
      var check := OwnershipCheck(post, requester);
      if check != Ok(()) {
        return if check == Fault then Fault else Forbidden;
      }
      var edited := EditedPost(post, content, category);
      var ok := Save(edited);
      r := if ok then Ok(edited) else Fault;
    }

    /** DELETE `/:id` */
    method Delete(id: ObjectId, requester: Option<Requester>) returns (r: Outcome<()>)
      requires Valid()
      modifies this
      ensures Valid()
      ensures id !in old(posts) ==> r == PostNotFound
      ensures id in old(posts) && requester.None? ==> r == Fault
      ensures id in old(posts) && requester.Some? && requester.value.id != Undefined ==> r == Forbidden
      ensures r.Ok? <==> id in old(posts) && requester == Some(Requester(Undefined))
      ensures r.Ok? ==> posts == old(posts) - {id} && order == Without(old(order), id)
      ensures !r.Ok? ==> posts == old(posts) && order == old(order)
    {
      if id !in posts {
        return PostNotFound;
      }
      var check := OwnershipCheck(posts[id], requester);
      if check != Ok(()) {
        return if check == Fault then Fault else Forbidden;
      }
      ghost var before := order;
      posts := posts - {id};
      order := Without(order, id);
      forall i | 0 <= i < |order| ensures order[i] in posts {
        assert order[i] in Without(before, id);
      }
      r := Ok(());
    }

    /** POST `/:id/upvote` */
    method Upvote(id: ObjectId) returns (r: Outcome<()>)
      requires Valid()
      modifies this
      ensures Valid()
      ensures order == old(order)
      ensures r == if id in old(posts) then Ok(()) else PostNotFound
      ensures id in old(posts) ==> posts == old(posts)[id := old(posts)[id].(upvotes := old(posts)[id].upvotes + 1)]
      ensures id !in old(posts) ==> posts == old(posts)
    {
      if id !in posts {
        return PostNotFound;
      }
      var post := posts[id];
      var ok := Save(post.(upvotes := post.upvotes + 1));
      r := if ok then Ok(()) else Fault;
    }

    /** POST `/:id/downvote` */
    method Downvote(id: ObjectId) returns (r: Outcome<()>)
      requires Valid()
      modifies this
      ensures Valid()
      ensures order == old(order)
      ensures r == if id in old(posts) then Ok(()) else PostNotFound
      ensures id in old(posts) ==> posts == old(posts)[id := old(posts)[id].(downvotes := old(posts)[id].downvotes + 1)]
      ensures id !in old(posts) ==> posts == old(posts)
    {
      if id !in posts {
        return PostNotFound;
      }
      var post := posts[id];
      var ok := Save(post.(downvotes := post.downvotes + 1));
      r := if ok then Ok(()) else Fault;
    }

    /** POST `/:postId/comments`: `commentId` is the identifier the new comment is given. */
    method AddComment(postId: ObjectId, commentId: ObjectId, content: Option<string>, userId: Option<ObjectId>, now: Time)
      returns (r: Outcome<Comment>)
      requires Valid()
      modifies this
      ensures Valid()
      ensures order == old(order)
      ensures postId !in old(posts) ==> r == PostNotFound
      ensures postId in old(posts) ==> (r.Ok? <==> RequiredString(content) && RequiredRef(userId))
      ensures postId in old(posts) && !r.Ok? ==> r == Fault
      ensures r.Ok? ==>
        && r.value == NewComment(commentId, content, userId, now)
        && posts == old(posts)[postId := old(posts)[postId].(comments := old(posts)[postId].comments + [r.value])]
      ensures !r.Ok? ==> posts == old(posts)
    {
      if postId !in posts {
        return PostNotFound;
      }
      var post := posts[postId];
      var comment := NewComment(commentId, content, userId, now);
      AppendCommentValid(post, comment);
      var ok := Save(post.(comments := post.comments + [comment]));
      r := if ok then Ok(comment) else Fault;
    }

    /** POST `/:postId/comments/:commentId/reply`: `replyId` is the identifier the new reply is given. */
    method AddReply(postId: ObjectId, commentId: ObjectId, replyId: ObjectId, content: Option<string>, userId: Option<ObjectId>, now: Time)
      returns (r: Outcome<Reply>)
      requires Valid()
      modifies this
      ensures Valid()
      ensures order == old(order)
      ensures postId !in old(posts) ==> r == PostNotFound
      ensures postId in old(posts) && FindComment(old(posts)[postId].comments, commentId).None? ==> r == CommentNotFound
      ensures postId in old(posts) && FindComment(old(posts)[postId].comments, commentId).Some? ==>
        (r.Ok? <==> RequiredString(content) && RequiredRef(userId)) && (!r.Ok? ==> r == Fault)
      ensures r.Ok? ==>
        && r.value == NewReply(replyId, content, userId, now)
        && postId in old(posts)
        && var p := old(posts)[postId];
           FindComment(p.comments, commentId).Some? &&
           var i := FindComment(p.comments, commentId).value;
           posts == old(posts)[postId := p.(comments := p.comments[i := p.comments[i].(replies := p.comments[i].replies + [r.value])])]
      ensures !r.Ok? ==> posts == old(posts)
    {
      if postId !in posts {
        return PostNotFound;
      }
      var post := posts[postId];
      var found := FindComment(post.comments, commentId);
      if found.None? {
        return CommentNotFound;
      }
      var i := found.value;
      var reply := NewReply(replyId, content, userId, now);
      var comment := post.comments[i];
      var updated := comment.(replies := comment.replies + [reply]);
      AppendReplyValid(comment, reply);
      ReplaceCommentValid(post, i, updated);
      var ok := Save(post.(comments := post.comments[i := updated]));
      r := if ok then Ok(reply) else Fault;
    }
  }

  // ---------------------------------------------------------------------------
  // Sequences of handler calls

  /** Deleting the same post twice: once the first call succeeds, the second finds nothing. */
  method DeleteTwice(table: PostTable, id: ObjectId, requester: Option<Requester>)
    returns (first: Outcome<()>, second: Outcome<()>)
    requires table.Valid()
    modifies table
    ensures table.Valid()
    ensures first.Ok? ==> second == PostNotFound
    ensures id !in old(table.posts) ==> first == PostNotFound && second == PostNotFound
  {
    first := table.Delete(id, requester);
    second := table.Delete(id, requester);
  }

  /**
   * Adding a comment with a fresh id and then a reply to it: the reply is the
   * only reply of the new, last comment.
   */
  method CommentThenReply(
    table: PostTable, postId: ObjectId, commentId: ObjectId, replyId: ObjectId,
    content: string, userId: ObjectId, now: Time)
    returns (added: Outcome<Comment>, replied: Outcome<Reply>)
    requires table.Valid() && postId in table.posts && content != ""
    requires forall j :: 0 <= j < |table.posts[postId].comments| ==> table.posts[postId].comments[j].id != commentId
    modifies table
    ensures table.Valid()
    ensures added.Ok? && replied.Ok?
    ensures postId in table.posts
    ensures |table.posts[postId].comments| == |old(table.posts[postId].comments)| + 1
    ensures var last := table.posts[postId].comments[|old(table.posts[postId].comments)|];
      last.id == commentId && last.replies == [NewReply(replyId, Some(content), Some(userId), now)]
  {
    ghost var before := table.posts[postId].comments;
    added := table.AddComment(postId, commentId, Some(content), Some(userId), now);
    var comments := table.posts[postId].comments;
    assert comments == before + [added.value];
    assert comments[|before|].id == commentId;
    assert FindComment(comments, commentId) == Some(|before|);
    replied := table.AddReply(postId, commentId, replyId, Some(content), Some(userId), now);
  }

  /** Upvoting a post twice and listing by upvotes shows it with two more upvotes. */
  method UpvoteTwiceThenSort(table: PostTable, id: ObjectId) returns (listing: seq<Post>)
    requires table.Valid() && id in table.posts
    modifies table
    ensures table.Valid()
    ensures id in table.posts && table.posts[id].upvotes == old(table.posts[id].upvotes) + 2
    ensures table.posts[id] in listing
    ensures forall i, j :: 0 <= i < j < |listing| ==> listing[i].upvotes >= listing[j].upvotes
  {
    var _ := table.Upvote(id);
    var _ := table.Upvote(id);
    listing := SortedPosts(table.posts, table.order, Some("upvotes"));
    SortedPostsIsTable(table.posts, table.order, Some("upvotes"));
    UpvotesListingDescends(table.posts, table.order);
  }
}

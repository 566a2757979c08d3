/**
 * The record shapes of the users and posts collections: the four schemas
 * (users, reply, comment, post), what each one requires of a document before
 * it can be saved, and the defaults a new document receives.
 */
module Schema {
  import opened Js

  /** A generated document identifier, compared only for equality. */
  type ObjectId = nat

  /** A timestamp in milliseconds, as `Date.now` gives it. */
  type Time = int

  /** A `required: true` String path: present and not the empty string. */
  predicate RequiredString(s: Option<string>) {
    s.Some? && s.value != ""
  }

  /** A `required: true` ObjectId reference. */
  predicate RequiredRef(r: Option<ObjectId>) {
    r.Some?
  }

  /** A document of the users collection. No path is declared unique. */
  datatype User = User(
    id: ObjectId,
    firstname: Option<string>,
    lastname: Option<string>,
    emailAddress: Option<string>,
    password: Option<string>,
    date: Time)

  predicate UserValid(u: User) {
    && RequiredString(u.firstname)
    && RequiredString(u.lastname)
    && RequiredString(u.emailAddress)
    && RequiredString(u.password)
  }

  /** A new user document: `date` takes its default, the creation time. */
  function NewUser(
    id: ObjectId,
    firstname: Option<string>,
    lastname: Option<string>,
    emailAddress: Option<string>,
    password: Option<string>,
    now: Time): (u: User)
    ensures u.id == id && u.emailAddress == emailAddress && u.date == now
    ensures UserValid(u) <==>
      RequiredString(firstname) && RequiredString(lastname) &&
      RequiredString(emailAddress) && RequiredString(password)
  {
    User(id, firstname, lastname, emailAddress, password, now)
  }

  /**
   * Nothing in the users schema makes `emailAddress` unique: two different
   * user documents with the same address are both valid.
   */
  lemma DuplicateEmailsAreValid(email: string)
    requires email != ""
    ensures exists a: User, b: User ::
      a.id != b.id && a.emailAddress == b.emailAddress == Some(email) &&
      UserValid(a) && UserValid(b)
  {
    var a := NewUser(0, Some("A"), Some("B"), Some(email), Some("hash"), 0);
    var b := NewUser(1, Some("C"), Some("D"), Some(email), Some("hash"), 0);
    assert a.id != b.id && UserValid(a) && UserValid(b);
  }

  /** An embedded reply (the reply schema keeps timestamps; only `createdAt` is modelled). */
  datatype Reply = Reply(
    id: ObjectId,
    content: Option<string>,
    user: Option<ObjectId>,
    createdAt: Time)

  /** An embedded comment with its replies in the order they were added. */
  datatype Comment = Comment(
    id: ObjectId,
    content: Option<string>,
    user: Option<ObjectId>,
    replies: seq<Reply>,
    createdAt: Time)

  /**
   * A document of the posts collection. The schema declares no owner path
   * and no `createdAt`: the creation time is `date`.
   */
  datatype Post = Post(
    id: ObjectId,
    imageUrl: Option<string>,
    content: Option<string>,
    category: Option<string>,
    upvotes: int,
    downvotes: int,
    comments: seq<Comment>,
    date: Time)

  predicate ReplyValid(r: Reply) {
    RequiredString(r.content) && RequiredRef(r.user)
  }

  predicate CommentValid(c: Comment) {
    && RequiredString(c.content)
    && RequiredRef(c.user)
    && forall i :: 0 <= i < |c.replies| ==> ReplyValid(c.replies[i])
  }

  /** Every path of a post is optional, so a post is valid when its comments are. */
  predicate PostValid(p: Post) {
    forall i :: 0 <= i < |p.comments| ==> CommentValid(p.comments[i])
  }

  /** A new post: no votes, no comments, `date` set to the creation time. */
  function NewPost(
    id: ObjectId,
    imageUrl: Option<string>,
    content: Option<string>,
    category: Option<string>,
    now: Time): (p: Post)
    ensures p.id == id && p.imageUrl == imageUrl && p.content == content && p.category == category
    ensures p.upvotes == 0 && p.downvotes == 0 && p.comments == [] && p.date == now
    ensures PostValid(p)
  {
    Post(id, imageUrl, content, category, 0, 0, [], now)
  }

  /** A new comment as the add-comment handler builds it: no replies yet. */
  function NewComment(id: ObjectId, content: Option<string>, user: Option<ObjectId>, now: Time): (c: Comment)
    ensures c.id == id && c.content == content && c.user == user && c.createdAt == now
    ensures c.replies == []
    ensures CommentValid(c) <==> RequiredString(content) && RequiredRef(user)
  {
    Comment(id, content, user, [], now)
  }

  /** A new reply as the add-reply handler builds it. */
  function NewReply(id: ObjectId, content: Option<string>, user: Option<ObjectId>, now: Time): (r: Reply)
    ensures r.id == id && r.content == content && r.user == user && r.createdAt == now
    ensures ReplyValid(r) <==> RequiredString(content) && RequiredRef(user)
  {
    Reply(id, content, user, now)
  }

  /** Appending a reply keeps a comment valid exactly when the reply is valid. */
  lemma AppendReplyValid(c: Comment, r: Reply)
    requires CommentValid(c)
    ensures CommentValid(c.(replies := c.replies + [r])) <==> ReplyValid(r)
  {
    var replies := c.replies + [r];
    assert replies[|c.replies|] == r;
  }

  /** Appending a comment keeps a post valid exactly when the comment is valid. */
  lemma AppendCommentValid(p: Post, c: Comment)
    requires PostValid(p)
    ensures PostValid(p.(comments := p.comments + [c])) <==> CommentValid(c)
  {
    var comments := p.comments + [c];
    assert comments[|p.comments|] == c;
  }

  /** Replacing one comment keeps a post valid exactly when the new comment is valid. */
  lemma ReplaceCommentValid(p: Post, i: nat, c: Comment)
    requires PostValid(p) && i < |p.comments|
    ensures PostValid(p.(comments := p.comments[i := c])) <==> CommentValid(c)
  {
    var comments := p.comments[i := c];
    assert comments[i] == c;
  }
}

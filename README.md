# Social-feed post store: a Dafny model

This project models the core of a small social-feed backend. Posts carry an
optional image, content and category, up- and down-vote counters, and
embedded comments, each with embedded replies. The model covers:

- the post route handlers (`routes/homeRoute.js`): create, list, edit, delete,
  upvote, downvote, add a comment, reply to a comment, view a post's comments
  and list posts sorted;
- the record schemas with their required fields and defaults
  (`models/validation.js`);
- the session gate `protectedRoute` (`auth/auth.js`).

Module layout:

- `Js` (`js.dfy`): absent values (`Option`), JavaScript truthiness and `a || b`.
- `Schema` (`schema.dfy`): `User`, `Reply`, `Comment` and `Post` as datatypes.
  It also has their validity predicates (what `save()` would reject) and the
  constructors that apply the schema defaults.
- `Auth` (`auth.dfy`): the gate as a total function from the optional session
  to `Proceed` or `Redirect("/")`.
- `HomeRoute` (`home_route.dfy`): the posts collection as the class `PostTable`.
  - It holds a map from post id to `Post` and the collection's natural order.
  - Its methods are the handlers that find, check, mutate and save a post.
  - The read-only handlers are functions of the stored posts: the listing, the
    sorted listing and the comment views.

Every handler returns an `Outcome`:

- `Ok` carries the handler's value.
- `PostNotFound` and `CommentNotFound` are the 404s.
- `Forbidden` is the 403.
- `Fault` stands for every exception the handler's `catch` turns into a 500.

The store invariant `PostTable.Valid()` has three parts:

- The natural order lists every stored id exactly once.
- Each post is stored under its own id.
- Every stored post passes schema validation.

Each mutating method keeps this invariant.

The model follows the code as written, including the behaviours below.

- **Owner check.** The post schema has no owner path, so `post.user` is
  always `undefined`. The edit and delete handlers compare it to `req.user.id`:
  - Nothing in the application sets `req.user`. When it is absent, the read of
    `.id` throws, and the handler answers `Fault`.
  - When `req.user` is present and its `id` is anything but `undefined`
    (`null` included), the check always fails, and the handler answers
    `Forbidden`.
  - When `req.user` is present but its `id` is `undefined`, `undefined !==
    undefined` is false. The check then passes and the edit or delete goes
    ahead. So not every present requester is refused.
  - The handlers' own comments say the check is meant to ensure "the user
    owns the post" (`routes/homeRoute.js:77-78`, `114-115`). The code enforces
    no ownership.
- **Validation on save.** `save()` validates the whole document. A comment or
  reply with a missing or empty `content`, or with no `userId`, is rejected.
  The handler then answers `Fault`, and the stored post is unchanged.
- **Comment views.** An unresolvable comment author is left `null` by
  population. `comment.user.name` then throws, so the whole call fails with
  `Fault`; the entry is not dropped. Reply authors are never populated, so a
  reply view's author has no `name` and no `picture`.
- **Recency sort.** Any `sortBy` other than `"upvotes"` sorts by `createdAt`.
  The post schema has no such path (its timestamp is `date`). Every post
  therefore ties under that key, and no order is promised
  (`HomeRoute.CreatedAtOrdersNothing`). The route's own comment promises
  posts "sorted by time posted" (`routes/homeRoute.js:277`).
- **No unique email.** The users schema declares no uniqueness on
  `emailAddress`, so two users with one address are both valid records.
- **Votes.** A vote reads the post, adds one and saves it. It is not an atomic
  increment, and the model treats it as one sequential step.
- **Comment lookup.** `post.comments.id(commentId)` finds the first comment
  with that id. A reply goes to that comment only.

## Model

| member | source | states |
|---|---|---|
| `Js.Or` | routes/homeRoute.js:84-85 | `a \|\| b` on optional strings: the result is `a` when `a` is truthy and `b` otherwise, and it is truthy exactly when one operand is |
| `Auth.ReadIsAuth` | auth/auth.js:6 | reading `req.session.isAuth` throws exactly when there is no session, and otherwise gives the flag |
| `Auth.ProtectedRoute` | auth/auth.js:2-26 | the gate proceeds exactly when a session exists and its `isAuth` is truthy; every other case, including a fault while reading the session, redirects to `/`; it is total, so it never throws and has exactly one outcome |
| `Schema.NewUser` | models/validation.js:5-11 | a new user record gets `date` = the creation time, and it is valid exactly when `firstname`, `lastname`, `emailAddress` and `password` are all present and non-empty |
| `Schema.DuplicateEmailsAreValid` | models/validation.js:8 | two distinct user records can share an email address and both be valid: no uniqueness is assumed |
| `Schema.NewReply` | models/validation.js:13-23 | a new reply carries the given id, content, user and creation time; it is valid exactly when its `content` is a non-empty string and its `user` reference is present |
| `Schema.NewComment` | models/validation.js:25-36 | a new comment carries the given id, content, user and creation time and has no replies; it is valid exactly when its `content` and `user` are present |
| `Schema.AppendReplyValid` | models/validation.js:35 | a valid comment stays valid after a reply is appended exactly when that reply is valid (nested validity) |
| `Schema.NewPost` | models/validation.js:40-48 | a fresh post has 0 upvotes, 0 downvotes, no comments and `date` = creation time; `imageUrl`, `content` and `category` are as given; it is valid |
| `Schema.AppendCommentValid` | models/validation.js:46 | a valid post stays valid after a comment is appended exactly when that comment is valid |
| `Schema.ReplaceCommentValid` | models/validation.js:46 | a valid post stays valid after one comment is replaced exactly when the new comment is valid |
| `HomeRoute.ImageUrl` | routes/homeRoute.js:44 | the image URL is present exactly when a file was uploaded, and is then the file's path |
| `HomeRoute.OwnershipCheck` | routes/homeRoute.js:77-81 | no requester gives `Fault`; a requester whose `id` is anything but `undefined` (`null` included) gives `Forbidden`; a requester with an `undefined` id passes, because a post's owner is always `undefined` |
| `HomeRoute.EditedPost` | routes/homeRoute.js:84-85 | the edit changes only `content` and `category`; a truthy new value replaces the old one; a missing or empty value keeps the prior one; validity is unchanged |
| `HomeRoute.FindComment` | routes/homeRoute.js:213-217 | the lookup gives the position of the first comment with the id, or nothing exactly when no comment has it |
| `HomeRoute.Without` | routes/homeRoute.js:120 | removing a post's id from the order keeps every other id, drops that id, and keeps the order free of repeats |
| `HomeRoute.ListAllIsTable` | routes/homeRoute.js:27-39 | listing returns every stored post, as many entries as stored posts, and only stored posts |
| `HomeRoute.SortKeyFor` | routes/homeRoute.js:283-288 | the upvotes key is chosen exactly when `sortBy` is the string `"upvotes"`; any other value selects the `createdAt` key |
| `HomeRoute.InsertByKey` | routes/homeRoute.js:291 | inserting one post into a listing sorted by the key keeps it sorted and adds exactly that post |
| `HomeRoute.Sort` | routes/homeRoute.js:291 | the sort returns a permutation of its input, ordered descending by the key, with missing keys last |
| `HomeRoute.SortedPosts` | routes/homeRoute.js:278-304 | the sorted listing is ordered by the chosen key and is a permutation of the plain listing |
| `HomeRoute.SortedPostsIsTable` | routes/homeRoute.js:290-294 | the sorted listing holds every stored post once and nothing else |
| `HomeRoute.UpvotesListingDescends` | routes/homeRoute.js:283-284 | with `sortBy == "upvotes"` the listing has non-increasing `upvotes` |
| `HomeRoute.CreatedAtOrdersNothing` | routes/homeRoute.js:286-288 | every sequence of posts is sorted under the `createdAt` key, since no post has that path: that branch promises no order |
| `HomeRoute.ViewReplies` | routes/homeRoute.js:259-267 | one view per reply, same length and order; each copies the id, content and `createdAt`, with an author that has no name or picture; it faults exactly when a reply has no user |
| `HomeRoute.ViewComments` | routes/homeRoute.js:251-268 | one view per comment in stored order, copying the id, content and `createdAt`, showing the resolved author, with replies of the same length and order; any unresolvable author makes the whole result `Fault` |
| `HomeRoute.GetComments` | routes/homeRoute.js:236-275 | `PostNotFound` exactly when the post is absent; otherwise the comment views, or `Fault` exactly when some comment cannot be viewed |
| `HomeRoute.ValidPostViewsIffAuthorsResolve` | routes/homeRoute.js:246-256 | for a valid post the comment views succeed exactly when every comment author resolves |
| `HomeRoute.PostTable.Save` | routes/homeRoute.js:86 | saving a loaded post writes it back exactly when it passes validation, and otherwise changes nothing |
| `HomeRoute.PostTable.Insert` | routes/homeRoute.js:52 | saving a new post inserts it at the end of the natural order exactly when it is valid and its id is not taken |
| `HomeRoute.PostTable.Create` | routes/homeRoute.js:42-58 | a new post with the schema defaults and the upload's path is stored and returned, and existing posts are unchanged; an id already taken gives `Fault` with nothing changed |
| `HomeRoute.PostTable.Edit` | routes/homeRoute.js:61-99 | absent post gives `PostNotFound`; then no requester gives `Fault` and a requester whose id is not `undefined` gives `Forbidden`; only a passing check replaces that post with the edited one; every failure leaves the store unchanged |
| `HomeRoute.PostTable.Delete` | routes/homeRoute.js:103-126 | the checks come in the same order as for edit; a successful delete removes exactly that post from the map and from the order; every failure leaves the store unchanged |
| `HomeRoute.PostTable.Upvote` | routes/homeRoute.js:129-147 | an existing post's `upvotes` grows by exactly 1 and nothing else changes; an absent post gives `PostNotFound` with the store unchanged |
| `HomeRoute.PostTable.Downvote` | routes/homeRoute.js:150-168 | an existing post's `downvotes` grows by exactly 1 and nothing else changes; an absent post gives `PostNotFound` with the store unchanged |
| `HomeRoute.PostTable.AddComment` | routes/homeRoute.js:172-198 | success appends exactly one new comment, with no replies, at the end of that post's comments; it succeeds exactly when the comment has content and a user, else `Fault`; absent post gives `PostNotFound`; failures change nothing |
| `HomeRoute.PostTable.AddReply` | routes/homeRoute.js:201-232 | `PostNotFound` is reported before `CommentNotFound`; success appends exactly one reply to the replies of the first comment with that id and changes no other comment; an invalid reply gives `Fault`; failures change nothing |
| `HomeRoute.DeleteTwice` | routes/homeRoute.js:108-121 | after a successful delete, deleting the same id again gives `PostNotFound` |
| `HomeRoute.CommentThenReply` | routes/homeRoute.js:183-225 | adding a comment with a fresh id and then replying to it leaves one more comment, last, whose only reply is the one submitted |
| `HomeRoute.UpvoteTwiceThenSort` | routes/homeRoute.js:139-140 | upvoting a post twice raises its `upvotes` by 2, and the upvotes-sorted listing then contains it, in non-increasing order |

## Left out

- Process wiring (`app.js`) is not part of this model. This covers the
  database connection, the session store, the secret file, the middleware
  stack and `listen`.
- Upload storage (multer disk storage and timestamped file names) is file
  system I/O. An upload is modelled only by the path it produced.
- Document ids are generated by the database. They are parameters here
  (`Create`'s `id`, `AddComment`'s `commentId`, `AddReply`'s `replyId`).
- A malformed id string makes `findById` throw a cast error, which the handlers
  turn into a 500. Ids here are always well formed, so this path is not
  modelled.
- Timestamps are parameters (`now`). Only `createdAt` of comments and replies
  is kept. `updatedAt` and its refresh on save are not modelled.
- Author population is an abstract partial map from user id to `{name,
  picture}`. Two facts about it are not modelled:
  - The comment schema refers to a model named `User`, but the users model is
    registered as `users`. With no model registered as `User`, populating
    `comments.user` is likely to fail with a missing-schema error. Get-comments
    on an existing post would then answer 500 whatever its authors are. The
    model instead lets the map decide which authors resolve.
  - The users schema has no `name` or `picture` path.
- `populate('user', 'name picture')` in the sorted listing is not modelled:
  posts have no `user` path, so it adds nothing.
- The database's sort is modelled as a stable insertion sort. The database
  gives no tie order, so the contracts promise only sortedness by the key and
  a permutation.
- Vote counters are unbounded integers, not JavaScript doubles. Concurrent
  votes can be lost, because each vote reads, increments and saves the post.
  The model is sequential and claims nothing about concurrent updates.
- Request bodies carry strings or nothing. Casting of other JSON types by the
  schema is not modelled.
- Registration, login, password hashing and tokens are left out: the route file
  has no such handlers.
- An exception thrown by `next()` inside the gate's `try` is not modelled.
  Express catches errors of later handlers itself.
- HTTP status codes, response envelopes and console logging are left out. They
  reduce to the `Outcome` tag.
- `PostTable.AddComment` and `PostTable.AddReply`: `Ok` carries the stored
  comment or reply, with its id and `createdAt`. The response body is the
  plain request object (`{content, user, replies: []}` or `{content, user}`),
  without an id or timestamps.
- The store is assumed reliable. A `findById` or `save` that fails for any
  reason other than validation would be caught and answered with a 500. So
  contracts such as `PostTable.Upvote`'s, which never give `Fault`, hold only
  for a database that does not fail.

/** The content service's data source: the query arguments it hands to the pagination engine for the
    post and reply connections, and the creation and deletion of posts and replies. */
module ContentDataSource {
  import opened Common

  /** A post document. A missing `blocked` field is `None`. */
  datatype Post = Post(id: ObjectId, authorProfileId: ObjectId, text: string, createdAt: int, blocked: Option<bool>)

  /** A reply document; `postAuthorProfileId` is copied from the parent post when the reply is created. */
  datatype Reply = Reply(
    id: ObjectId,
    authorProfileId: ObjectId,
    postAuthorProfileId: ObjectId,
    postId: ObjectId,
    text: string,
    createdAt: int,
    blocked: Option<bool>)

  /** The part of a profile document the content service reads. */
  datatype Profile = Profile(id: ObjectId, username: string, following: seq<ObjectId>)

  /** A value a MongoDB filter compares a document field with. */
  datatype Value = IdValue(id: ObjectId) | Null | BoolValue(b: bool)

  /** The condition a filter puts on one field: `{f: v}` or `{f: {$in: [...]}}`. */
  datatype Condition = Equals(value: Value) | In(values: seq<Value>)

  /** A MongoDB filter: one condition per field name, all of which must hold. */
  type Filter = map<string, Condition>

  /** A MongoDB sort document: field name to 1 (ascending) or -1 (descending). */
  type Sort = map<string, int>

  /** The connection arguments the resolvers forward unchanged. */
  datatype PageArgs = PageArgs(after: Option<string>, before: Option<string>, first: Option<int>, last: Option<int>)

  /** `queryArgs`: what the data source hands to the pagination engine. */
  datatype QueryArgs = QueryArgs(page: PageArgs, filter: Filter, sort: Sort)

  datatype Edge = Edge(cursor: string, node: ObjectId)
  datatype PageInfo = PageInfo(endCursor: Option<string>, hasNextPage: bool, hasPreviousPage: bool, startCursor: Option<string>)
  datatype Connection = Connection(edges: seq<Edge>, pageInfo: PageInfo)

  /** The pagination engine of one collection, whose behaviour is not modelled: `getEdges` and
      `getPageInfo` are arbitrary functions of the query arguments. */
  datatype Pager = Pager(getEdges: QueryArgs -> seq<Edge>, getPageInfo: (seq<Edge>, QueryArgs) -> PageInfo)
  {
    /** `{ edges, pageInfo }` for the given query arguments. */
    function Connect(q: QueryArgs): Connection
    {
      var edges := getEdges(q);
      Connection(edges, getPageInfo(edges, q))
    }
  }

  /** The `filter` argument of the posts query. */
  datatype PostsFilterInput = PostsFilterInput(followedBy: Option<string>, includeBlocked: Option<bool>)

  /** The `filter` argument of the replies query. */
  datatype RepliesFilterInput = RepliesFilterInput(to: Option<string>, from: Option<string>)

  /** Which side of a reply a replies query selects on. */
  datatype ReplySide = FromAuthor | ToPostAuthor

  const UnknownUserMessage := "User with that username cannot be found."
  const NoReplyUserMessage := "You must provide a username to get replies to or from."
  const BothReplyUsersMessage := "You may only provide a `to` or `from` argument."
  const UnknownPostAuthorMessage := "You must provide a valid username as the author of this post."
  const UnknownReplyAuthorMessage := "You must provide a valid username as the author of this reply."
  const UnknownParentPostMessage := "You must provide a valid parent post ID for this reply."
  const UnknownPostIdMessage := "The provided post id does not exist."
  const UnknownReplyIdMessage := "The provided reply id does not exist."
  const ReplyValidationMessage := "Reply validation failed"
  const MaxTextLength := 256

  // ---------------------------------------------------------------------------------------------
  // `String.prototype.split` with a one-character separator, and its inverse

  /** `s.split(sep)`: the maximal pieces of `s` between occurrences of `sep`, empty pieces included. */
  function Split(s: string, sep: char): (parts: seq<string>)
    ensures |parts| >= 1
    ensures forall i :: 0 <= i < |parts| ==> sep !in parts[i]
  {
    if s == [] then [""]
    else
      var rest := Split(s[1..], sep);
      if s[0] == sep then [""] + rest
      else [[s[0]] + rest[0]] + rest[1..]
  }

  /** `parts.join(sep)`. */
  function Join(parts: seq<string>, sep: char): string
    requires |parts| >= 1
  {
    if |parts| == 1 then parts[0] else parts[0] + [sep] + Join(parts[1..], sep)
  }

  /** Joining the pieces of a split gives back the string. */
  lemma {:induction false} JoinSplit(s: string, sep: char)
    ensures Join(Split(s, sep), sep) == s
  {
    if s != [] {
      JoinSplit(s[1..], sep);
      var rest := Split(s[1..], sep);
      if s[0] == sep {
        assert Split(s, sep)[1..] == rest;
      } else {
        var parts := Split(s, sep);
        if |rest| == 1 {
          assert parts == [[s[0]] + rest[0]];
        } else {
          assert parts[1..] == rest[1..];
          assert Join(parts, sep) == [s[0]] + (rest[0] + [sep] + Join(rest[1..], sep));
        }
      }
    }
  }

  /** A piece free of the separator stays whole at the front of a split. */
  lemma {:induction false} SplitPrefix(piece: string, rest: string, sep: char)
    requires sep !in piece
    ensures Split(piece + rest, sep) == [piece + Split(rest, sep)[0]] + Split(rest, sep)[1..]
  {
    if piece != [] {
      assert (piece + rest)[1..] == piece[1..] + rest;
      SplitPrefix(piece[1..], rest, sep);
      assert [piece[0]] + (piece[1..] + Split(rest, sep)[0]) == piece + Split(rest, sep)[0];
    } else {
      var parts := Split(rest, sep);
      assert piece + rest == rest;
      assert piece + parts[0] == parts[0];
      assert [parts[0]] + parts[1..] == parts;
    }
  }

  /** Splitting a join of separator-free pieces gives back the pieces. */
  lemma {:induction false} SplitJoin(parts: seq<string>, sep: char)
    requires |parts| >= 1
    requires forall i :: 0 <= i < |parts| ==> sep !in parts[i]
    ensures Split(Join(parts, sep), sep) == parts
  {
    if |parts| == 1 {
      SplitPrefix(parts[0], "", sep);
      assert parts[0] + "" == parts[0];
    } else {
      var tail := Join(parts[1..], sep);
      SplitJoin(parts[1..], sep);
      assert Join(parts, sep) == parts[0] + ([sep] + tail);
      SplitPrefix(parts[0], [sep] + tail, sep);
      assert ([sep] + tail)[1..] == tail;
      assert Split([sep] + tail, sep) == [""] + parts[1..];
      assert parts[0] + "" == parts[0];
    }
  }

  /** `_getContentSort`: with no enum (or an empty one) the sort is `{createdAt: -1}`; otherwise the
      enum's first `_`-separated piece is the one field, descending when the second piece is `DESC`
      and ascending for any other or missing second piece. */
  function ContentSort(sortEnum: Option<string>): (sort: Sort)
    ensures |sort| == 1
    ensures !Present(sortEnum) ==> sort == map["createdAt" := -1]
    ensures forall field :: field in sort ==> sort[field] == -1 || sort[field] == 1
  {
    if Present(sortEnum) then
      var sortArgs := Split(sortEnum.value, '_');
      var field := sortArgs[0];
      var direction := if |sortArgs| > 1 then Some(sortArgs[1]) else None;
      map[field := if direction == Some("DESC") then -1 else 1]
    else
      map["createdAt" := -1]
  }

  /** An enum `<field>_<direction>` sorts on `<field>`, descending exactly when `<direction>` is `DESC`. */
  lemma FieldDirectionSort(field: string, direction: string)
    requires '_' !in field && '_' !in direction
    ensures ContentSort(Some(field + "_" + direction)) == map[field := if direction == "DESC" then -1 else 1]
  {
    SplitJoin([field, direction], '_');
    assert Join([field, direction], '_') == field + "_" + direction by {
      assert Join([field, direction][1..], '_') == direction;
    }
  }

  /** The two values of the `PostOrderByInput` / `ReplyOrderByInput` enums. */
  lemma OrderByEnumSorts()
    ensures ContentSort(Some("createdAt_DESC")) == map["createdAt" := -1]
    ensures ContentSort(Some("createdAt_ASC")) == map["createdAt" := 1]
  {
    FieldDirectionSort("createdAt", "DESC");
    assert "createdAt" + "_" + "DESC" == "createdAt_DESC";
    FieldDirectionSort("createdAt", "ASC");
    assert "createdAt" + "_" + "ASC" == "createdAt_ASC";
  }

  // ---------------------------------------------------------------------------------------------
  // What a filter selects

  /** The ids as filter values. */
  function IdValues(ids: seq<ObjectId>): (vs: seq<Value>)
    ensures |vs| == |ids|
    ensures forall x :: IdValue(x) in vs <==> x in ids
    ensures forall v :: v in vs ==> v.IdValue?
  {
    if ids == [] then [] else [IdValue(ids[0])] + IdValues(ids[1..])
  }

  /** An optional boolean field as a filter value: a missing field compares as `null`. */
  function FlagValue(b: Option<bool>): Value
  {
    match b
    case None => Null
    case Some(x) => BoolValue(x)
  }

  predicate Satisfies(v: Value, c: Condition)
  {
    match c
    case Equals(w) => v == w
    case In(ws) => v in ws
  }

  function PostField(p: Post, field: string): Value
  {
    if field == "_id" then IdValue(p.id)
    else if field == "authorProfileId" then IdValue(p.authorProfileId)
    else if field == "blocked" then FlagValue(p.blocked)
    else Null
  }

  function ReplyField(r: Reply, field: string): Value
  {
    if field == "_id" then IdValue(r.id)
    else if field == "authorProfileId" then IdValue(r.authorProfileId)
    else if field == "postAuthorProfileId" then IdValue(r.postAuthorProfileId)
    else if field == "postId" then IdValue(r.postId)
    else if field == "blocked" then FlagValue(r.blocked)
    else Null
  }

  /** The post satisfies every condition of the filter. */
  predicate PostMatches(f: Filter, p: Post)
  {
    forall field :: field in f ==> Satisfies(PostField(p, field), f[field])
  }

  /** The reply satisfies every condition of the filter. */
  predicate ReplyMatches(f: Filter, r: Reply)
  {
    forall field :: field in f ==> Satisfies(ReplyField(r, field), f[field])
  }

  /** The `to` / `from` check of `getReplies`: exactly one of them must be given, and it decides the
      username looked up and the side of the reply the filter is on. */
  function ReplyTarget(to: Option<string>, from: Option<string>): (r: Result<(string, ReplySide)>)
    ensures r.Success? <==> Present(to) != Present(from)
    ensures !Present(to) && !Present(from) ==> r == Failure(NoReplyUserMessage)
    ensures Present(to) && Present(from) ==> r == Failure(BothReplyUsersMessage)
    ensures r.Success? && Present(from) ==> r.value == (from.value, FromAuthor)
    ensures r.Success? && Present(to) ==> r.value == (to.value, ToPostAuthor)
  {
    if !Present(to) && !Present(from) then Failure(NoReplyUserMessage)
    else if Present(to) && Present(from) then Failure(BothReplyUsersMessage)
    else
      var username := if Present(from) then from.value else to.value;
      Success((username, if Present(from) then FromAuthor else ToPostAuthor))
  }

  /** The text a reply document may be saved with: required (non-empty) and, as Mongoose's `maxLength`
      counts JavaScript's `length`, at most 256 UTF-16 code units. */
  function ValidReplyText(text: string): (ok: bool)
    ensures ok ==> 1 <= |text| <= MaxTextLength
    ensures (forall i :: 0 <= i < |text| ==> InBasicPlane(text[i])) ==> (ok <==> 1 <= |text| <= MaxTextLength)
    ensures |text| > MaxTextLength / 2 && (forall i :: 0 <= i < |text| ==> !InBasicPlane(text[i])) ==> !ok
  {
    text != "" && Utf16Length(text) <= MaxTextLength
  }

  /** The post, reply and profile collections of the content service. */
  class ContentStore {
    var posts: map<ObjectId, Post>
    var replies: map<ObjectId, Reply>
    var profiles: map<ObjectId, Profile>
    /** Every id below this one has been handed out; stands for MongoDB's fresh ObjectIds. */
    var nextId: ObjectId

    /** Documents are keyed by their own ids, created ids are below `nextId`, usernames are unique. */
    ghost predicate Valid()
      reads this
    {
      && (forall id :: id in posts ==> posts[id].id == id && id < nextId)
      && (forall id :: id in replies ==> replies[id].id == id && id < nextId)
      && (forall id :: id in profiles ==> profiles[id].id == id)
      && (forall a, b :: a in profiles && b in profiles && profiles[a].username == profiles[b].username ==> a == b)
    }

    constructor (posts: map<ObjectId, Post>, replies: map<ObjectId, Reply>, profiles: map<ObjectId, Profile>,
                 nextId: ObjectId)
      requires forall id :: id in posts ==> posts[id].id == id && id < nextId
      requires forall id :: id in replies ==> replies[id].id == id && id < nextId
      requires forall id :: id in profiles ==> profiles[id].id == id
      requires forall a, b :: a in profiles && b in profiles && profiles[a].username == profiles[b].username ==> a == b
      ensures Valid()
      ensures this.posts == posts && this.replies == replies && this.profiles == profiles && this.nextId == nextId
    {
      this.posts := posts;
      this.replies := replies;
      this.profiles := profiles;
      this.nextId := nextId;
    }

    /** `Profile.findOne({ username })`. */
    method FindProfileByUsername(username: string) returns (r: Option<Profile>)
      requires Valid()
      ensures r.Some? ==> r.value.id in profiles && profiles[r.value.id] == r.value && r.value.username == username
      ensures r.None? <==> forall id :: id in profiles ==> profiles[id].username != username
    {
      if id :| id in profiles && profiles[id].username == username {
        r := Some(profiles[id]);
      } else {
        r := None;
      }
    }

    /** `getPosts`: without `followedBy` the filter is empty; with it, the posts of the followed
        profiles and of the profile itself, leaving out blocked posts only when `includeBlocked` is
        `false`. An unknown username is rejected. */
    method GetPosts(page: PageArgs, orderBy: Option<string>, rawFilter: Option<PostsFilterInput>, pager: Pager)
      returns (r: Result<Connection>, query: QueryArgs)
      requires Valid()
      ensures r.Success? ==> query.page == page && query.sort == ContentSort(orderBy) && r.value == pager.Connect(query)
      ensures !(rawFilter.Some? && Present(rawFilter.value.followedBy)) ==> r.Success? && query.filter == map[]
      ensures rawFilter.Some? && Present(rawFilter.value.followedBy) ==>
                (r.Failure? <==> forall id :: id in profiles ==> profiles[id].username != rawFilter.value.followedBy.value)
      ensures r.Failure? ==> r.error == UnknownUserMessage
      ensures forall id ::
                (r.Success? && rawFilter.Some? && Present(rawFilter.value.followedBy) &&
                 id in profiles && profiles[id].username == rawFilter.value.followedBy.value) ==>
                && query.filter.Keys == {"authorProfileId"} + (if rawFilter.value.includeBlocked == Some(false) then {"blocked"} else {})
                && (forall p: Post :: PostMatches(query.filter, p) <==>
                      && p.authorProfileId in profiles[id].following + [id]
                      && (rawFilter.value.includeBlocked == Some(false) ==> p.blocked != Some(true)))
    {
      var filter: Filter := map[];
      query := QueryArgs(page, filter, map[]);
      if rawFilter.Some? && Present(rawFilter.value.followedBy) {
        var profile := FindProfileByUsername(rawFilter.value.followedBy.value);
        if profile.None? {
          r := Failure(UnknownUserMessage);
          return;
        }
        var authors := profile.value.following + [profile.value.id];
        filter := filter["authorProfileId" := In(IdValues(authors))];
        if rawFilter.value.includeBlocked == Some(false) {
          filter := filter["blocked" := In([Null, BoolValue(false)])];
        }
        forall p: Post
          ensures PostMatches(filter, p) <==>
                    && p.authorProfileId in authors
                    && (rawFilter.value.includeBlocked == Some(false) ==> p.blocked != Some(true))
        {
          assert PostField(p, "authorProfileId") == IdValue(p.authorProfileId);
          assert PostField(p, "blocked") == FlagValue(p.blocked);
        }
      }
      var sort := ContentSort(orderBy);
      query := QueryArgs(page, filter, sort);
      r := Success(pager.Connect(query));
    }

    /** `getOwnPosts`: the posts authored by one profile. */
    method GetOwnPosts(page: PageArgs, orderBy: Option<string>, authorProfileId: ObjectId, pager: Pager)
      returns (c: Connection, query: QueryArgs)
      ensures query == QueryArgs(page, query.filter, ContentSort(orderBy)) && c == pager.Connect(query)
      ensures forall p: Post :: PostMatches(query.filter, p) <==> p.authorProfileId == authorProfileId
    {
      var filter: Filter := map["authorProfileId" := Equals(IdValue(authorProfileId))];
      query := QueryArgs(page, filter, ContentSort(orderBy));
      forall p: Post
        ensures PostMatches(filter, p) <==> p.authorProfileId == authorProfileId
      {
        assert PostField(p, "authorProfileId") == IdValue(p.authorProfileId);
      }
      c := pager.Connect(query);
    }

    /** `getReplies`: exactly one of `to` / `from`; `from` selects the replies the profile wrote,
        `to` the replies to the profile's posts. An unknown username is rejected. */
    method GetReplies(page: PageArgs, orderBy: Option<string>, rawFilter: RepliesFilterInput, pager: Pager)
      returns (r: Result<Connection>, query: QueryArgs)
      requires Valid()
      ensures ReplyTarget(rawFilter.to, rawFilter.from).Failure? ==>
                r == Failure(ReplyTarget(rawFilter.to, rawFilter.from).error)
      ensures ReplyTarget(rawFilter.to, rawFilter.from).Success? ==>
                var username := ReplyTarget(rawFilter.to, rawFilter.from).value.0;
                (r.Failure? <==> forall id :: id in profiles ==> profiles[id].username != username)
                && (r.Failure? ==> r.error == UnknownUserMessage)
      ensures r.Success? ==> query.page == page && query.sort == ContentSort(orderBy) && r.value == pager.Connect(query)
      ensures forall id ::
                (r.Success? && id in profiles &&
                 profiles[id].username == ReplyTarget(rawFilter.to, rawFilter.from).value.0) ==>
                forall reply: Reply :: ReplyMatches(query.filter, reply) <==>
                  if Present(rawFilter.from) then reply.authorProfileId == id else reply.postAuthorProfileId == id
    {
      query := QueryArgs(page, map[], map[]);
      var target := ReplyTarget(rawFilter.to, rawFilter.from);
      if target.Failure? {
        r := Failure(target.error);
        return;
      }
      var profile := FindProfileByUsername(target.value.0);
      if profile.None? {
        r := Failure(UnknownUserMessage);
        return;
      }
      var filter: Filter := map[];
      var field := if Present(rawFilter.from) then "authorProfileId" else "postAuthorProfileId";
      filter := filter[field := Equals(IdValue(profile.value.id))];
      forall reply: Reply
        ensures ReplyMatches(filter, reply) <==>
                  if Present(rawFilter.from) then reply.authorProfileId == profile.value.id
                  else reply.postAuthorProfileId == profile.value.id
      {
        assert ReplyField(reply, field) ==
               IdValue(if Present(rawFilter.from) then reply.authorProfileId else reply.postAuthorProfileId);
      }
      query := QueryArgs(page, filter, ContentSort(orderBy));
      r := Success(pager.Connect(query));
    }

    /** `getOwnReplies`: the replies authored by one profile. */
    method GetOwnReplies(page: PageArgs, orderBy: Option<string>, authorProfileId: ObjectId, pager: Pager)
      returns (c: Connection, query: QueryArgs)
      ensures query == QueryArgs(page, query.filter, ContentSort(orderBy)) && c == pager.Connect(query)
      ensures forall reply: Reply :: ReplyMatches(query.filter, reply) <==> reply.authorProfileId == authorProfileId
    {
      var filter: Filter := map["authorProfileId" := Equals(IdValue(authorProfileId))];
      query := QueryArgs(page, filter, ContentSort(orderBy));
      forall reply: Reply
        ensures ReplyMatches(filter, reply) <==> reply.authorProfileId == authorProfileId
      {
        assert ReplyField(reply, "authorProfileId") == IdValue(reply.authorProfileId);
      }
      c := pager.Connect(query);
    }

    /** `getPostReplies`: the replies to one post. */
    method GetPostReplies(page: PageArgs, orderBy: Option<string>, postId: ObjectId, pager: Pager)
      returns (c: Connection, query: QueryArgs)
      ensures query == QueryArgs(page, query.filter, ContentSort(orderBy)) && c == pager.Connect(query)
      ensures forall reply: Reply :: ReplyMatches(query.filter, reply) <==> reply.postId == postId
    {
      var filter: Filter := map["postId" := Equals(IdValue(postId))];
      query := QueryArgs(page, filter, ContentSort(orderBy));
      forall reply: Reply
        ensures ReplyMatches(filter, reply) <==> reply.postId == postId
      {
        assert ReplyField(reply, "postId") == IdValue(reply.postId);
      }
      c := pager.Connect(query);
    }

    /** `createPost`: stores a new post authored by the profile with the given username. */
    method CreatePost(text: string, username: string, now: int) returns (r: Result<Post>)
      requires Valid()
      modifies this
      ensures Valid()
      ensures replies == old(replies) && profiles == old(profiles)
      ensures r.Failure? <==> forall id :: id in profiles ==> profiles[id].username != username
      ensures r.Failure? ==> r.error == UnknownPostAuthorMessage && posts == old(posts) && nextId == old(nextId)
      ensures r.Success? ==>
                && r.value.id !in old(posts)
                && r.value.authorProfileId in profiles && profiles[r.value.authorProfileId].username == username
                && r.value == Post(r.value.id, r.value.authorProfileId, text, now, None)
                && posts == old(posts)[r.value.id := r.value]
    {
      var profile := FindProfileByUsername(username);
      if profile.None? {
        r := Failure(UnknownPostAuthorMessage);
        return;
      }
      var post := Post(nextId, profile.value.id, text, now, None);
      posts := posts[nextId := post];
      nextId := nextId + 1;
      r := Success(post);
    }

    /** `deletePost`: removes the post with the given id and returns the id. */
    method DeletePost(id: ObjectId) returns (r: Result<ObjectId>)
      requires Valid()
      modifies this
      ensures Valid()
      ensures replies == old(replies) && profiles == old(profiles) && nextId == old(nextId)
      ensures r.Failure? <==> id !in old(posts)
      ensures r.Failure? ==> r.error == UnknownPostIdMessage && posts == old(posts)
      ensures r.Success? ==> r.value == id && posts == old(posts) - {id}
    {
      if id !in posts {
        r := Failure(UnknownPostIdMessage);
        return;
      }
      posts := posts - {id};
      r := Success(id);
    }

    /** `createReply`: a missing author is reported before a missing parent post; the reply records
        the parent post's author. Saving enforces the reply schema's required, 256-character text. */
    method CreateReply(postId: ObjectId, text: string, username: string, now: int) returns (r: Result<Reply>)
      requires Valid()
      modifies this
      ensures Valid()
      ensures posts == old(posts) && profiles == old(profiles)
      ensures (forall id :: id in profiles ==> profiles[id].username != username) ==> r == Failure(UnknownReplyAuthorMessage)
      ensures (exists id :: id in profiles && profiles[id].username == username) && postId !in posts ==>
                r == Failure(UnknownParentPostMessage)
      ensures (exists id :: id in profiles && profiles[id].username == username) && postId in posts ==>
                (r.Success? <==> ValidReplyText(text))
      ensures r.Failure? ==> replies == old(replies) && nextId == old(nextId)
      ensures r.Success? ==>
                && r.value.id !in old(replies)
                && r.value.authorProfileId in profiles && profiles[r.value.authorProfileId].username == username
                && postId in posts
                && r.value == Reply(r.value.id, r.value.authorProfileId, posts[postId].authorProfileId, postId, text, now, None)
                && replies == old(replies)[r.value.id := r.value]
    {
      var post := if postId in posts then Some(posts[postId]) else None;
      var profile := FindProfileByUsername(username);
      if profile.None? {
        r := Failure(UnknownReplyAuthorMessage);
        return;
      } else if post.None? {
        r := Failure(UnknownParentPostMessage);
        return;
      }
      var reply := Reply(nextId, profile.value.id, post.value.authorProfileId, postId, text, now, None);
      if !ValidReplyText(text) {
        r := Failure(ReplyValidationMessage);
        return;
      }
      replies := replies[nextId := reply];
      nextId := nextId + 1;
      r := Success(reply);
    }

    /** `deleteReply`: removes the reply with the given id and returns the id. */
    method DeleteReply(id: ObjectId) returns (r: Result<ObjectId>)
      requires Valid()
      modifies this
      ensures Valid()
      ensures posts == old(posts) && profiles == old(profiles) && nextId == old(nextId)
      ensures r.Failure? <==> id !in old(replies)
      ensures r.Failure? ==> r.error == UnknownReplyIdMessage && replies == old(replies)
      ensures r.Success? ==> r.value == id && replies == old(replies) - {id}
    {
      if id !in replies {
        r := Failure(UnknownReplyIdMessage);
        return;
      }
      replies := replies - {id};
      r := Success(id);
    }

    /** Deleting a post right after creating it leaves the posts as they were. */
    method CreateThenDeletePost(text: string, username: string, now: int) returns (created: Result<Post>)
      requires Valid()
      modifies this
      ensures Valid()
      ensures posts == old(posts) && replies == old(replies) && profiles == old(profiles)
      ensures created.Success? <==> exists id :: id in profiles && profiles[id].username == username
    {
      created := CreatePost(text, username, now);
      if created.Success? {
        var deleted := DeletePost(created.value.id);
        assert deleted == Success(created.value.id);
        assert old(posts)[created.value.id := created.value] - {created.value.id} == old(posts);
      }
    }
  }
}

# A verified model of a small Django social network

This project models the rules of a social network written in Django. Users
send friend requests and become friends; they get friend suggestions
through mutual friends. They write posts with hashtags and react to them,
chat one to one, and receive notifications. A superuser moderates reported
posts on a dashboard. The views, signal receivers and context processors
are stated over an in-memory relational store, and their promises are
proved:

- Every table is a sequence of records with `nat` ids.
- Timestamps are `int` seconds.
- The tables that the code updates in place live in three classes, each
  with a store invariant `Valid()`:
  - `NotificationsModels.NotificationTable` holds the notifications.
  - `ChatModels.ChatStore` holds conversations and messages.
  - `PostsModels.PostStore` holds posts, comments, reactions, tags, tag
    links and reports.
- Views that change the store are methods with `modifies` clauses. Each
  states the whole new state.
- Read-only views that loop are methods proved equal to a specification
  function. They include `get_friends`, suggestion collection, the
  notification feed, the conversation summary, the user search and the
  dashboard's user counts. The properties the code promises are lemmas
  about those functions.

There is one Dafny module per source file:

| module | source file |
|---|---|
| `AccountsModels` | accounts/models.py |
| `AccountsContext` | accounts/context_processors.py |
| `AccountsSignals` | accounts/signals.py |
| `AccountsBackends` | accounts/backends.py |
| `NotificationsModels` | notifications/models.py |
| `NotificationsViews` | notifications/views.py |
| `ChatModels` | chat/models.py |
| `ChatViews` | chat/views.py |
| `PostsModels` | posts/models.py |
| `PostsSignals` | posts/signals.py |
| `PostsViews` | posts/views.py |
| `PostsContext` | posts/context_processors.py |
| `CoreViews` | core/views.py |

Two more modules hold shared definitions:

- `ContentTypes` holds the generic foreign key, a content kind plus an id.
- `Base` holds `Option`, filtering, the stable descending sort that
  stands for `order_by('-x')` and `sorted(..., reverse=True)`, top-k, and
  ASCII string helpers.

Things the store cannot provide are inputs:

- The random `order_by('?')` is an input permutation of the user table.
- The regular-expression class `\w` is a character predicate.
- `str.lower` is a string function.
- `check_password` and `user_can_authenticate` are predicates.
- The current time is an `int`.
- Whether a request is a POST is a `bool`.

Two record types, `Tag(id, name)` and `Report(id, status, post, createdAt,
reporter)`, are imported but not declared by posts/models.py. They are
declared with the fields that posts/signals.py, posts/context_processors.py
and core/views.py read. A report's foreign key to its post cascades on
delete, as core/views.py:79-81 relies on.

## Model

| member | source | states |
|---|---|---|
| `AccountsModels.UniquePairsAdd` | accounts/models.py:26-27 | an edge whose ordered (from, to) pair is new keeps the pairs unique; the reverse of an edge is such a new pair, so both directions may coexist |
| `AccountsModels.FindUser` | chat/views.py:27 | the user with a given id, or None exactly when no user has that id |
| `AccountsModels.FriendsIff` | accounts/models.py:38-44 | x is a friend of u iff an ACCEPTED edge goes from u to x or from x to u |
| `AccountsModels.FriendsSymmetric` | accounts/models.py:39-44 | b is a friend of a iff a is a friend of b, although edges are directed |
| `AccountsModels.PendingAddsNoFriend` | accounts/models.py:40 | inserting a PENDING edge anywhere in the table leaves every friend set unchanged |
| `AccountsModels.CollectFriendIds` | accounts/models.py:37-44 | the loop over the user's accepted edges collects exactly the friend-id set |
| `AccountsModels.UsersWithIds` | accounts/models.py:47 | the users listed are exactly the table's users whose id is in the set |
| `AccountsModels.GetFriends` | accounts/models.py:32-47 | returns exactly the users joined to u by an accepted edge in either direction |
| `AccountsContext.CandidatesExcluding` | accounts/context_processors.py:63 | at most 20 candidates, each from the shuffled user table, not excluded and not a superuser |
| `AccountsContext.WithMutualFriends` | accounts/context_processors.py:66-87 | each suggestion is a candidate whose mutual-friend count is the size of the two friend sets' intersection and positive, and every candidate with a positive count is suggested with that count |
| `AccountsContext.SuggestionsTop` | accounts/context_processors.py:91-92 | top three: a candidate with a mutual friend that is not suggested is outranked by each of three suggestions |
| `AccountsContext.SuggestionsSound` | accounts/context_processors.py:51-92 | at most 3 suggestions, in non-increasing mutual count; none is the user, a friend, someone the user has a pending request to, or a superuser; each count is the intersection size and above 0; a candidate with a mutual friend that is left out means three suggestions, each with at least its count |
| `AccountsContext.IncomingRequestNotExcluded` | accounts/context_processors.py:51-58 | a pending request sent TO the user does not add its sender to the excluded ids |
| `AccountsContext.CollectSuggestions` | accounts/context_processors.py:66-87 | the append loop over candidates yields exactly the candidates with a positive mutual-friend count, in candidate order |
| `AccountsContext.FriendsSidebar` | accounts/context_processors.py:13-94 | no context without a logged-in user; otherwise at most 7 sidebar users, all friends from the user table, and the sorted top-3 suggestions |
| `AccountsBackends.LowestIdMatch` | accounts/backends.py:12-17 | None iff no user's username or email equals the identifier; otherwise a matching user with the lowest id |
| `AccountsBackends.Authenticate` | accounts/backends.py:9-22 | no match gives None; a returned user matches the identifier, has the lowest id among matches, passes the password check and may authenticate |
| `AccountsBackends.AuthenticateIsLowestIdRule` | accounts/backends.py:11-22 | with unique ids, the single-match path and the multiple-match path together reduce to the lowest-id match accepted only when both predicates hold |
| `AccountsSignals.OnFriendshipSaved` | accounts/signals.py:9-21 | exactly one notification is appended iff the edge is newly created and PENDING: unread, FRIEND_REQUEST, from from_user to to_user, targeting the edge; otherwise the table is unchanged |
| `NotificationsModels.MarkedRead` | notifications/views.py:30 | same length; a row is read afterwards iff it was read or its id is in the set; no other field changes, and a row whose id is not in the set is unchanged |
| `NotificationsModels.NotificationTable.constructor` | notifications/models.py:7-30 | an empty table with ids starting at 1 |
| `NotificationsModels.NotificationTable.Create` | notifications/models.py:18-27 | appends one unread notification with a fresh id and the current time |
| `NotificationsModels.NotificationTable.MarkRead` | notifications/views.py:30 | the bulk update of is_read for a set of ids |
| `NotificationsViews.NotificationListView` | notifications/views.py:18-37 | unread ids are the user's unread rows before the call; the table becomes those rows marked read; the list is the user's rows newest first, read after the update |
| `NotificationsViews.ListViewSpec` | notifications/views.py:21-30 | an id of the user's is in unread_ids iff that row was unread; afterwards each of the user's rows is read and otherwise unchanged, other users' rows are untouched, and every listed row is read |
| `NotificationsViews.TargetMessage` | notifications/views.py:54 | a resolved target is a message row that the notification's generic target names |
| `NotificationsViews.GroupIndex` | notifications/views.py:56 | the position of the group for a conversation, or None iff no group has that conversation |
| `NotificationsViews.AbsorbKeeps` | notifications/views.py:52-63 | one iteration of the grouping loop keeps the bucket invariant |
| `NotificationsViews.BucketedSpec` | notifications/views.py:50-63 | one group per conversation; each group's count is the number of its message notifications, latest is the first of them, and it is read iff all are read; unresolved messages are dropped; the others keep their order |
| `NotificationsViews.TextFor` | notifications/views.py:84-95 | the six handled types get their text and every other type gets empty text; no single notification gets the grouped-message text |
| `NotificationsViews.GetNotifications` | notifications/views.py:39-111 | the entries are the sorted feed built from the user's 15 newest rows, and total_unread is the number of the user's unread rows |
| `NotificationsViews.GroupRecent` | notifications/views.py:50-63 | the dictionary-and-list loop computes exactly the buckets of the specification |
| `NotificationsViews.CountInGroup` | notifications/views.py:56-61 | creating a group with count 0, then counting and clearing is_read, equals the one-step group update |
| `NotificationsViews.FeedEntries` | notifications/views.py:65-104 | the group entries come first, then the other entries, each in its source order |
| `NotificationsViews.RecentSpec` | notifications/views.py:44-46 | the slice: at most 15 of the user's rows, newest first; a row of the user's left out means 15 rows, none older than it |
| `NotificationsViews.GetNotificationsSpec` | notifications/views.py:44-106 | at most 15 recent rows, all the user's, newest first, and a row of the user's left out means 15 rows none older than it; the bucket invariant; each group's latest is its newest; every group and every non-message row gives an entry, and there are no other entries; the feed is non-increasing by minute |
| `NotificationsViews.TargetUser` | notifications/views.py:135-136 | a resolved user is the notification's user target |
| `NotificationsViews.TargetPost` | notifications/views.py:139-140 | a resolved post is the notification's post target |
| `NotificationsViews.TargetComment` | notifications/views.py:144-145 | a resolved comment is the notification's comment target |
| `NotificationsViews.Route` | notifications/views.py:132-154 | FRIEND_REQUEST iff redirect to the request list. Every other destination refers to a live object of the right kind: the accepter's profile, a post's anchor on its author's profile, a reacted message's conversation. A missing comment post is the only server error |
| `NotificationsViews.OwnIndex` | notifications/views.py:115 | the position of notification pk when it belongs to the actor, or None when no such row of the actor's exists |
| `NotificationsViews.MarkConversationSpec` | notifications/views.py:116-126 | the opened notification targets its conversation; the actor's MESSAGE rows for messages of that conversation become read and every other row is unchanged |
| `NotificationsViews.MarkOneSpec` | notifications/views.py:128-130 | marking one id reads that row and leaves every other row unchanged |
| `NotificationsViews.RedirectNotification` | notifications/views.py:113-154 | someone else's notification is a 404 with nothing changed; a message notification with a target marks its conversation read and opens it; any other marks only itself and follows the routing chain; the opened row is read afterwards |
| `ChatModels.ConversationIndex` | chat/views.py:51 | the position of the conversation with that id, or None iff there is none |
| `ChatModels.MessageIndex` | chat/views.py:111 | the position of the message with that id, or None iff there is none |
| `ChatModels.FindMessage` | chat/views.py:97 | the message with that id, or None iff there is none |
| `ChatModels.WithoutMessage` | chat/views.py:103 | exactly the messages with another id remain |
| `ChatModels.ClearLastMessage` | chat/models.py:16-21 | `on_delete=SET_NULL`: afterwards no conversation refers to the deleted message; only last_message can change, and only where it was the deleted one |
| `ChatModels.ChatStore.constructor` | chat/models.py:5-35 | empty tables with ids starting at 1 |
| `ChatModels.ChatStore.CreateConversation` | chat/views.py:43-44 | appends one private conversation with a fresh id and exactly the given participants |
| `ChatModels.ChatStore.CreateMessage` | chat/views.py:75-78 | appends one message with a fresh id, stamped now |
| `ChatModels.ChatStore.SaveConversation` | chat/views.py:81-82 | replaces one conversation row and nothing else |
| `ChatModels.ChatStore.SaveMessage` | chat/views.py:121-122 | replaces one message row and nothing else |
| `ChatModels.ChatStore.DeleteMessage` | chat/views.py:103 | removes the message and clears every last_message that pointed at it |
| `ChatViews.FirstWithBoth` | chat/views.py:35-39 | the first conversation that contains both users, or None iff there is none |
| `ChatViews.FirstWithBothLowest` | chat/views.py:35-39 | with increasing ids, the first match is the one with the lowest id |
| `ChatViews.StartConversation` | chat/views.py:24-46 | unknown user gives 404; oneself gives the list with nothing created; an existing conversation that contains both users is reused, whether private or a group; otherwise exactly one conversation with exactly the two users is created |
| `ChatViews.ParticipantConversation` | chat/views.py:72 | a conversation with that id that has the actor as participant, found whenever one exists |
| `ChatViews.SendMessage` | chat/views.py:69-91 | non-POST gives 400, non-participant 404, blank text 400, and none of these change anything; otherwise one message from the actor with the stripped text is stored, and it becomes the conversation's last message with updated_at now |
| `ChatViews.DeleteMessage` | chat/views.py:94-105 | only a POST by the message's sender deletes it; anyone else gets 403 and the store is unchanged |
| `ChatViews.EditMessage` | chat/views.py:108-133 | only the sender may edit; bad JSON or empty text is rejected with the text unchanged; non-empty text replaces exactly that message's text |
| `ChatViews.SummariesFollowFilter` | chat/views.py:143-163 | one summary per conversation that has another participant, in order |
| `ChatViews.GetConversations` | chat/views.py:134-165 | the append loop yields exactly the summaries of the 10 most recently updated conversations |
| `ChatViews.RecentConversationsTop` | chat/views.py:140 | the query reads the viewer's ten most recently updated conversations: one left out was updated no later than any kept, and then ten are kept |
| `ChatViews.GetConversationsSpec` | chat/views.py:140-152 | at most 10 summaries, most recently updated first; a conversation of the viewer's left out of the query means 10 read, none updated earlier; none without another participant; the preview is empty without a last message and prefixed "Bạn: " iff the viewer sent it |
| `ChatViews.HitsPointwise` | chat/views.py:183-190 | one hit per matched user, in order |
| `ChatViews.SearchUsers` | chat/views.py:166-192 | the append loop yields exactly the hits of the matching users |
| `ChatViews.SearchUsersSpec` | chat/views.py:171-187 | a blank query finds no one; at most 10 users, never the searcher, each containing the query case-insensitively in a name field; a missed match means the limit was reached; full_name falls back to the username |
| `PostsModels.DefaultOrderings` | posts/models.py:32-33 | posts are a permutation ordered newest first, and comments a permutation ordered oldest first |
| `PostsModels.KindCountsTotal` | posts/models.py:63-70 | the six per-type counts add up to the number of reactions |
| `PostsModels.ReactionStatsSpec` | posts/models.py:28-30 | the keys are exactly the types present on the post, each with its count, no type twice, in non-increasing count order, summing to the post's reaction total |
| `PostsModels.ReactionTotalIsReactorCount` | posts/models.py:80-82 | with one reaction per (user, target), a target's reaction total equals its number of distinct reactors |
| `PostsModels.FindPost` | posts/models.py:16-36 | the post with that id, or None iff there is none |
| `PostsModels.FindComment` | posts/models.py:48-60 | the comment with that id, or None iff there is none |
| `PostsModels.FindTagByName` | posts/signals.py:19 | the tag with that name, or None iff there is none |
| `PostsModels.ReportIndex` | core/views.py:72 | the position of the report with that id, or None iff there is none |
| `PostsModels.PostsWithoutMembers` | posts/models.py:22 | the posts left after deleting one are exactly the others, with shared_from set to NULL on its shares |
| `PostsModels.ReportsWithoutMembers` | core/views.py:77-81 | the post's reports go with it and every other report stays |
| `PostsModels.ReportsFollowPosts` | core/views.py:77-81 | after the cascade every remaining report still points at a remaining post |
| `PostsModels.PostStore.constructor` | posts/models.py:16-85 | empty tables |
| `PostsModels.PostStore.GetOrCreateTag` | posts/signals.py:19 | an existing tag of that name is returned and nothing is created; otherwise exactly one tag with a fresh id is appended |
| `PostsModels.PostStore.ClearTags` | posts/signals.py:15 | removes exactly the post's tag links |
| `PostsModels.PostStore.AddTag` | posts/signals.py:20 | adds one link; a repeated add is a no-op of the set |
| `PostsModels.PostStore.SetReportStatus` | core/views.py:90-91 | changes only that report's status |
| `PostsModels.CascadeReplies` | posts/models.py:54 | the parent cascade: it holds the starting comments, only comment ids, and every reply to a comment it holds |
| `PostsModels.DeletedCommentsLeast` | posts/models.py:50-54 | nothing beyond the cascade goes: any reply-closed set holding the post's comments holds every removed comment |
| `PostsModels.CommentsWithoutMembers` | posts/models.py:50-54 | the comments left are exactly those the cascade does not reach; none is on the post and none replies to a removed comment |
| `PostsModels.FilterOnePerTarget` | posts/models.py:80-82 | removing reactions keeps one reaction per user and object |
| `PostsModels.DeleteKeepsValid` | posts/models.py:16-82 | deleting a post with its cascade keeps the store invariant: tags, reports pointing at posts, one reaction per user and object |
| `PostsModels.PostStore.DeletePost` | posts/models.py:16-54 | the cascade removes the post, its comments and their replies, its reactions, its reports and its tag links, and nulls shared_from on its shares |
| `PostsSignals.WordRun` | posts/signals.py:12 | the longest prefix of word characters: all of it is word characters and the next one is not |
| `PostsSignals.HashtagsAreWords` | posts/signals.py:12 | every extracted name is non-empty and made of word characters |
| `PostsSignals.HashtagsOccur` | posts/signals.py:12 | every extracted name occurs in the content right after a `#` |
| `PostsSignals.FindRendered` | posts/signals.py:12 | extracting from `#name ` renderings gives back exactly the names in order |
| `PostsSignals.LinkHashtag` | posts/signals.py:19-20 | one loop step: get or create the tag, link it; links of other posts and existing tags stay |
| `PostsSignals.ExtractHashtags` | posts/signals.py:7-20 | empty content changes nothing; otherwise the post's tags are exactly the lowercased hashtags, the tag names grow by exactly the hashtags that were missing (existing tags kept, none created when none is missing), and other posts' links are unchanged |
| `PostsSignals.LinksDetermined` | posts/signals.py:15-20 | a link table is fixed by one post's links together with every other post's links |
| `PostsSignals.ResaveUnchanged` | posts/signals.py:7-20 | saving again with the same content changes no tag and no link |
| `PostsViews.HomeFeedSpec` | posts/views.py:12-15 | exactly the PUBLIC posts, each as often as in the table, newest first; the feed takes no viewer |
| `PostsContext.TrendingTagsSpec` | posts/context_processors.py:9-15 | at most 5 tags, by non-increasing count; each has a positive in-window count; a tag left out means the 5 listed all count at least as much |
| `PostsContext.OldPostIgnored` | posts/context_processors.py:11-12 | adding a post older than 24 hours does not change the trending list |
| `CoreViews.RedirectAfterLogin` | core/views.py:15-19 | the dashboard iff superuser, the home feed otherwise |
| `CoreViews.DashboardDates` | core/views.py:24-25 | 7 consecutive days, oldest first, ending today |
| `CoreViews.UserCounts` | core/views.py:29-32 | the loop gives one count per date |
| `CoreViews.UserCountsSpec` | core/views.py:29-32 | 7 counts, each the number of users who joined on that date |
| `CoreViews.TopUsersSpec` | core/views.py:42 | min(users, 5) entries by non-increasing post count, each a real user with its true count; a user left out means five users with at least its count |
| `CoreViews.TopPostsSpec` | core/views.py:50-52 | min(posts, 5) posts by non-increasing reaction count; a post left out means five posts with at least its count; ties keep newest-first order |
| `CoreViews.PendingReportsSpec` | core/views.py:55 | exactly the PENDING reports, each as often as in the table, newest first |
| `CoreViews.AdminDashboard` | core/views.py:21-67 | non-superusers are sent to login; the context holds the dates, counts, totals, top users, top posts and pending reports |
| `CoreViews.HandleReport` | core/views.py:69-94 | non-superuser, non-POST or unknown report change nothing. "delete" deletes the post with its cascade, report included. "ignore" sets only that report to IGNORED. Any other action is a server error and changes nothing |

## Left out

- URL configuration and the views that exist only there (message
  reactions, mark-all-read, sharing, group moderation) have no code to
  model. Forms, admin classes, the password-reset token generator,
  template tags and `SignUpView` are framework declarations.
- `conversation_list_view` and `conversation_detail_view` (chat/views.py:16-21, 49-64)
  only render templates from queries. Their ordering and participant
  lookup are the ones modelled in `GetConversations` and
  `ParticipantConversation`.
- Rendering, JSON and redirect URLs are result datatypes, not strings.
- The display texts are constructors of `NotificationText`. Truncated target
  previews (`truncatewords`), `strftime` and the local time zone are not
  in the model.
- The feed's final sort uses the minute of its formatted timestamp. It is
  modelled as `timestamp / 60` on UTC seconds, so the day and time-zone
  shift of `localtime` is not captured.
- The dashboard's `today`, and each `date_joined__date`, is a UTC day
  number `t / 86400`.
- `@login_required` and `user_passes_test` redirects are outcome
  constructors. The user is otherwise an id passed in.
- `AccountsBackends.Authenticate`: a missing (`None`) username is not
  modelled; the identifier is always a string.
- `MessageReadStatus` (chat/models.py:40-49) is not read or written by any
  modelled view.
- Profile links use the user's id. The source puts the user's unique
  username in the URL.
- The conversation summary reports the other participant's id. The
  source reports its username.
- Notification feed entries carry the sender's id. The source's JSON
  sends `n.sender.username` (notifications/views.py:72, 100).
- `ChatViews.EditMessage`: the request's `text` field is an optional
  string. A truthy JSON value of another type (a number, a list, an
  object), which the source would store, is not modelled.
- Database tie order is modelled as table order. Examples are
  `order_by('-updated_at')` with equal times, `.first()` without an
  ordering (lowest id), and the unspecified order of a grouped count.
- Deleting a message removes the message and clears `last_message`. The
  reactions on the message, which its generic relation (chat/models.py:32)
  would also delete, are not tracked. Reactions on comments removed with a
  post stay, as they do in the source: `Comment` has no generic relation,
  and `ReactionsWithout` removes only the reactions on the post itself.
- `ChatViews.SendMessage`: the model form's text field (chat/forms.py:6-9) rejects text that
  contains a NUL character with a 400. The model stores such text.
- Tag-name uniqueness and `unique_together` on reactions are invariants
  of the post store (`PostStore.Valid`). The friendship `unique_together`
  (`UniquePairs`) and unique user ids (`UserIdsUnique`) belong to no store
  here: they are predicates that the lemmas needing them take as
  hypotheses. Races between concurrent requests are not modelled.
- Python's Unicode `str.strip` and case-insensitive `icontains` are
  modelled on ASCII (`IsSpace`, `AsciiLower`). `str.lower` and `\w` are
  parameters.
- A notification target of a kind other than its type expects (e.g. a
  FRIEND_ACCEPT pointing at a post) is treated as no target.
  `Create` refuses such targets.
- `CoreViews.HandleReport`: the `if report.post` test is always true
  under the store invariant (every report points at a live post), so
  that branch is not modelled separately.
- The source comment at notifications/views.py:28-29 says the update does
  not affect `notifications`. The queryset is lazy, though, so the list
  is rendered after the update. The model follows the code:
  `NotificationListView` returns the rows as they are after they were
  marked read.
- The edit view does not strip the new text, so whitespace-only text is
  accepted. The send view's form strips it and rejects it.

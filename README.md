# sync-learn-canvas: the study-session core in Dafny

sync-learn-canvas is a React application for shared study rooms. A dashboard
lists rooms and creates new ones through a dialog. Inside a room, a YouTube
video plays beside a collaboration panel. In that panel, comments are pinned
to video positions and can jump the player back to them, and an AI assistant
answers questions with a canned reply.

This project models the part of the application that is plain state and
string logic once the YouTube player, the timers and the rendering are set
aside:

- `text.dfy` — the JavaScript string operations the code relies on:
  `String.prototype.trim` and the `\s` class (the ECMAScript white-space and
  line-terminator set), `String(n)` / `n.toString()` and `padStart`.
- `video_player.dfy` — the video-id extractor of `VideoPlayer.tsx`, written
  as a hand-made matcher with the regular expression's leftmost-first,
  backtracking semantics. It also holds the player component as a class: the
  player handle, the one-second position sampler, its teardown, the seek
  effect and the play/mute toggles.
- `study_room.dfy` — the anchored URL validator of `StudyRoom.tsx`, proved
  equal to a reference reading of the pattern, and related to the extractor.
  It also holds the playback-position / pending-seek state machine (a pure
  replay model with backward reference definitions) and the study-room page
  as a class whose methods drive its player.
- `comments_panel.dfy` — `formatTime`, the seed comments, submitting,
  liking and jumping.
- `create_room_dialog.dfy` — the zod schema of the create-room form and the
  dialog's submit and cancel.
- `dashboard.dfy` — the room catalogue and its append with sequential ids.
- `room_card.dfy` — the avatar slice, the "+N more" label and the room link.
- `ai_bot_panel.dfy` — the assistant's message list and its deferred reply.
- `options.dfy` — `Option` and `Result`.

The player reports fractional positions (`getCurrentTime()`,
`src/components/VideoPlayer.tsx:85`); the model takes them as whole seconds
(`nat`), as `formatTime` rounds them down (`src/components/CommentsPanel.tsx:50-51`). Callbacks from the YouTube API, timer
firings and `Date.now()` ids are parameters or explicit method calls.

Two behaviours of the code shape the model:

- A pending seek is not retried when the player becomes ready: the seek
  effect re-runs only when `seekToTime` or the `onSeekComplete` arrow
  changes (`src/components/VideoPlayer.tsx:105-110`). The model makes one
  run of the effect an explicit `AttemptSeek` call. It proves what each run
  does, not that a run will come.
- `Player.Teardown` keeps the destroyed object in `playerRef`
  (`src/components/VideoPlayer.tsx:98-100`), and the seek guard does not
  check it.

## Model

| member | source | states |
|---|---|---|
| Text.Trim | src/pages/StudyRoom.tsx:15 | `trim` drops exactly the leading and trailing ECMAScript white space: the result is a slice of the input with only white space around it, it is empty iff the input is all white space, and otherwise its ends are not white space |
| Text.TrimIdempotent | src/pages/StudyRoom.tsx:15 | trimming twice is trimming once |
| Text.TrimUnpadded | src/components/CreateRoomDialog.tsx:28 | text with non-white-space ends is its own trim |
| Text.TrimPadded | src/components/CreateRoomDialog.tsx:28 | white space around text with non-white-space ends is exactly what `trim` removes |
| Text.NatToString | src/pages/Dashboard.tsx:45 | `String(n)` is a non-empty run of digits, starts with '0' only for 0, has one digit iff n < 10 and at most two iff n < 100 |
| Text.NatToStringValue | src/pages/Dashboard.tsx:45 | the decimal rendering reads back as the number rendered |
| Text.NatToStringInjective | src/pages/Dashboard.tsx:45 | distinct numbers render to distinct strings |
| Text.PadStart | src/components/CommentsPanel.tsx:52 | `padStart` returns the input when it is at least as long as the width, else exactly the width |
| Text.PadStartShape | src/components/CommentsPanel.tsx:52 | the padded string ends with the input and everything before it is the fill character |
| Text.LeadingZerosValue | src/components/CommentsPanel.tsx:52 | leading zeros do not change the number a numeral denotes |
| Text.ZeroPaddedValue | src/components/CommentsPanel.tsx:52 | `n.toString().padStart(w, '0')` is all digits and still denotes n |
| VideoPlayer.NextSlash | src/components/VideoPlayer.tsx:63 | the first '/' at or after i, or the end; nothing before it is '/' |
| VideoPlayer.NextLineTerminator | src/components/VideoPlayer.tsx:63 | where a greedy `.*` from i stops: the first line terminator, or the end |
| VideoPlayer.SlashThenId | src/components/VideoPlayer.tsx:63 | backtracking of `.+\/` before the id group lands on a '/' in range that an 11-character id follows |
| VideoPlayer.QueryThenId | src/components/VideoPlayer.tsx:63 | backtracking of `.*[?&]v=` lands on a `?v=` or `&v=` in range that an id follows |
| VideoPlayer.ChannelPathId | src/components/VideoPlayer.tsx:63 | the `[^\/]+\/.+\/` alternative yields an id position past its start |
| VideoPlayer.ShortPathId | src/components/VideoPlayer.tsx:63 | the `v/`, `embed/`, `e/` alternative yields an id position past its start |
| VideoPlayer.QueryId | src/components/VideoPlayer.tsx:63 | the `.*[?&]v=` alternative yields an id position past its start |
| VideoPlayer.MatchAt | src/components/VideoPlayer.tsx:63 | a match of the whole pattern at a start index captures an id that lies after that index |
| VideoPlayer.Leftmost | src/components/VideoPlayer.tsx:63 | the leftmost-first scan returns the first start index that admits a match, and returns none only if no index in range does |
| VideoPlayer.FirstMatch | src/components/VideoPlayer.tsx:63 | `String.prototype.match` picks a start index inside the string at which the pattern matches |
| VideoPlayer.GetYoutubeVideoId | src/components/VideoPlayer.tsx:62-64 | a returned id is exactly 11 characters, none of them `"`, `&`, `?`, `/` or white space |
| VideoPlayer.VideoIdOf | src/components/VideoPlayer.tsx:66 | an empty `youtubeUrl` gives no id; otherwise the extractor's id, with the same guarantees |
| VideoPlayer.LeftmostSkips | src/components/VideoPlayer.tsx:63 | start indices that cannot match do not change where the scan lands |
| VideoPlayer.LeftmostIs | src/components/VideoPlayer.tsx:63 | the scan lands on the first start index that matches |
| VideoPlayer.NoMatchWithoutY | src/components/VideoPlayer.tsx:63 | no match can start at a character other than 'y' |
| VideoPlayer.FirstMatchSkips | src/components/VideoPlayer.tsx:63 | a stretch without 'y' is skipped by the scan |
| VideoPlayer.FirstMatchFinds | src/components/VideoPlayer.tsx:63 | if the pattern matches at any index at or after p, the scan from p finds a match |
| VideoPlayer.SlashThenIdNone | src/components/VideoPlayer.tsx:63 | without a '/' in range the channel-path backtracking fails |
| VideoPlayer.QueryThenIdRightmost | src/components/VideoPlayer.tsx:63 | the backtracking settles on the rightmost `[?&]v=` that an id follows, whatever other `?` or `&` come after it |
| VideoPlayer.QueryThenIdFinds | src/components/VideoPlayer.tsx:63 | one `[?&]v=` followed by an id in range is enough for the query alternative to succeed |
| VideoPlayer.CanonicalIdAt | src/components/VideoPlayer.tsx:63 | an id of `[\w-]` characters satisfies the id group `[^"&?\/\s]{11}` |
| VideoPlayer.ShortLinkMatch | src/components/VideoPlayer.tsx:63 | `youtu.be/` followed by an id matches with the id right after the route |
| VideoPlayer.EmbedLinkMatch | src/components/VideoPlayer.tsx:63 | `youtube.com/embed/<id>` at the end of the text matches with the id right after the route |
| VideoPlayer.WatchLinkMatch | src/components/VideoPlayer.tsx:63 | `youtube.com/watch?v=<id>` at the end of the text matches with the id right after the route |
| VideoPlayer.CanonicalMatchAt | src/components/VideoPlayer.tsx:63 | each of the three canonical shapes with a trailing `[\w-]{11}` id matches at the route |
| VideoPlayer.ExtractedAt | src/components/VideoPlayer.tsx:63 | the extractor returns the 11 characters at the capture of the leftmost match |
| VideoPlayer.CanonicalUrlId | src/components/VideoPlayer.tsx:62-64 | for `youtu.be/<id>`, `youtube.com/embed/<id>` and `youtube.com/watch?v=<id>` with a `[\w-]{11}` id and nothing after it, behind any prefix without a 'y', the extractor returns exactly `<id>` |
| VideoPlayer.CanonicalShape | src/components/VideoPlayer.tsx:63 | where route and id sit in `prefix + route + id` |
| VideoPlayer.Player.constructor | src/components/VideoPlayer.tsx:21-28 | a new player derives its id from the URL, has no handle, no timer, and is paused and unmuted |
| VideoPlayer.Player.OnPlayerCreated | src/components/VideoPlayer.tsx:77-79 | the API-ready callback stores a fresh, not yet ready player handle |
| VideoPlayer.Player.OnPlayerReady | src/components/VideoPlayer.tsx:81-89 | `onReady` makes the handle seekable and starts the one-second sampler |
| VideoPlayer.Player.SamplerTick | src/components/VideoPlayer.tsx:83-88 | a tick reports the clock unchanged iff the sampler runs and `onTimeUpdate` exists; a cleared timer reports nothing |
| VideoPlayer.Player.ApplySeek | src/components/VideoPlayer.tsx:105-110 | the player is sought iff there is a target and the handle exposes `seekTo`, then to that target; `onSeekComplete` is called iff it is present and a seek happened |
| VideoPlayer.Player.Teardown | src/components/VideoPlayer.tsx:94-101 | cleanup stops the sampler if one was set and destroys the handle if there is one; nothing else changes |
| VideoPlayer.Player.ChangeUrl | src/components/VideoPlayer.tsx:66-102 | a new URL re-derives the id; the load effect is torn down only when the id changes, and the same id leaves the handle and sampler as they were |
| VideoPlayer.Player.TogglePlay | src/components/VideoPlayer.tsx:30-39 | `isPlaying` flips only while the native video element exists; otherwise nothing changes |
| VideoPlayer.Player.ToggleMute | src/components/VideoPlayer.tsx:41-46 | `isMuted` flips only while the native video element exists; otherwise nothing changes |
| StudyRoom.SchemeLengthOf | src/pages/StudyRoom.tsx:16 | the validator's scheme step consumes the scheme the URL starts with |
| StudyRoom.SubdomainEndOf | src/pages/StudyRoom.tsx:16 | the `www.` step consumes the subdomain the URL has |
| StudyRoom.RouteEndOf | src/pages/StudyRoom.tsx:16 | the route step recognises each of the three routes and ends after it |
| StudyRoom.SchemeOf | src/pages/StudyRoom.tsx:16 | what the scheme step consumes is one of `""`, `http://`, `https://` and is present |
| StudyRoom.SubdomainOf | src/pages/StudyRoom.tsx:16 | what the `www.` step consumes is `""` or `www.` and is present |
| StudyRoom.RouteOf | src/pages/StudyRoom.tsx:16 | a recognised route is one of the three and is present |
| StudyRoom.MatchesUrlPatternSound | src/pages/StudyRoom.tsx:15-18 | whatever the matcher accepts is spelled by some scheme, subdomain, route, `[\w-]{11}` id and non-blank tail |
| StudyRoom.SpelledByMatches | src/pages/StudyRoom.tsx:15-18 | whatever such a choice spells, the matcher accepts |
| StudyRoom.MatchesUrlPatternIff | src/pages/StudyRoom.tsx:15-18 | the matcher accepts exactly the strings the anchored pattern describes |
| StudyRoom.UrlAcceptedIff | src/pages/StudyRoom.tsx:15-18 | a URL is accepted iff its trimmed form has an optional scheme, an optional `www.`, one of the three routes, an 11-character `[\w-]` id and a non-blank tail |
| StudyRoom.ShortLinkAccepted | src/pages/StudyRoom.tsx:15-18 | `https://youtu.be/` followed by any `[\w-]{11}` id is accepted |
| StudyRoom.ShortLinkExample | src/pages/StudyRoom.tsx:15-18 | `https://youtu.be/dQw4w9WgXcQ` is accepted |
| StudyRoom.PlainTextRejected | src/pages/StudyRoom.tsx:15-18 | `not a url` is rejected |
| StudyRoom.WatchQueryFinds | src/components/VideoPlayer.tsx:63 | after `youtube.com/`, `watch?v=` and an id make the query alternative succeed |
| StudyRoom.WatchRouteMatches | src/components/VideoPlayer.tsx:63 | `youtube.com/watch?v=` followed by an id starts a match of the extractor |
| StudyRoom.EmbedRouteMatches | src/components/VideoPlayer.tsx:63 | `youtube.com/embed/` followed by an id starts a match of the extractor |
| StudyRoom.RouteMatches | src/components/VideoPlayer.tsx:63 | each route the validator knows, followed by an id, starts a match of the extractor |
| StudyRoom.SliceIdAt | src/pages/StudyRoom.tsx:16 | an id the validator reads in the trimmed text is an id-group match in the raw text |
| StudyRoom.TrimmedRoute | src/pages/StudyRoom.tsx:16 | accepted text has one of the three routes, followed by an id and a non-blank tail |
| StudyRoom.AcceptedUrlRoute | src/pages/StudyRoom.tsx:15-18 | the raw input of an accepted URL holds a route followed by an id |
| StudyRoom.AcceptedUrlHasVideoId | src/pages/StudyRoom.tsx:49-52 | every URL the validator accepts, stored untrimmed, gives the player a video id |
| StudyRoom.SlashThenIdRightmost | src/components/VideoPlayer.tsx:63 | the channel-path backtracking settles on the last '/' in range that an id follows, whatever other '/' come after it |
| StudyRoom.NextSlashIs | src/components/VideoPlayer.tsx:63 | the first '/' scan stops at the first '/' |
| StudyRoom.TrailingSegmentShape | src/components/VideoPlayer.tsx:63 | the layout of `youtube.com/embed/<a>/<b>` |
| StudyRoom.TrailingSegmentAccepted | src/pages/StudyRoom.tsx:15-18 | `youtube.com/embed/<a>/<b>` is accepted: `/<b>` is the non-blank tail |
| StudyRoom.TrailingSegmentChannel | src/components/VideoPlayer.tsx:63 | on `youtube.com/embed/<a>/<b>` the channel-path alternative captures `<b>` |
| StudyRoom.TrailingSegmentMatch | src/components/VideoPlayer.tsx:63 | that URL matches at its start, capturing the second segment |
| StudyRoom.TrailingSegmentOverridesId | src/components/VideoPlayer.tsx:62-66 | the validator accepts `youtube.com/embed/<a>/<b>` for id `<a>`, but the player plays `<b>` |
| StudyRoom.ReplaySnoc | src/pages/StudyRoom.tsx:27-28 | replaying a history and one more event is one step after the history |
| StudyRoom.ReplayFromInitial | src/pages/StudyRoom.tsx:27-28 | after any history, `currentVideoTime` is the last reported time (0 before any) and `seekToTime` the last jump no successful seek has consumed |
| StudyRoom.OutstandingIsLastJump | src/pages/StudyRoom.tsx:154 | a pending target is always the most recent jump: last write wins |
| StudyRoom.SeekIsLatestJump | src/pages/StudyRoom.tsx:104 | whenever the player is sought, it is sought to the most recently requested position |
| StudyRoom.SeeksBoundedByJumps | src/pages/StudyRoom.tsx:104 | seeks made plus seeks still pending never exceed the jumps requested |
| StudyRoom.AtMostOneSeekPerJump | src/pages/StudyRoom.tsx:104 | each jump request causes at most one seek |
| StudyRoom.JumpBeforeReady | src/components/VideoPlayer.tsx:105-110 | a jump requested before the player can seek stays pending, is applied once by the first run that can seek, and is not applied again |
| StudyRoom.Page.constructor | src/pages/StudyRoom.tsx:23-28 | a new page has the menu closed, the comments tab open, empty URLs, time 0, no pending seek and a player with no id |
| StudyRoom.Page.HandleMenuToggle | src/pages/StudyRoom.tsx:30-32 | the menu flag is negated and nothing else changes |
| StudyRoom.Page.ClosePauseMenu | src/pages/StudyRoom.tsx:113 | the menu closes and nothing else changes |
| StudyRoom.Page.OpenFromMenu | src/pages/StudyRoom.tsx:34-47 | a quick action opens its tab and closes the menu |
| StudyRoom.Page.HandleAskDoubt | src/pages/StudyRoom.tsx:34-37 | opens the chat tab and closes the menu |
| StudyRoom.Page.HandleAskAI | src/pages/StudyRoom.tsx:39-42 | opens the AI tab and closes the menu |
| StudyRoom.Page.HandleOpenBoard | src/pages/StudyRoom.tsx:44-47 | opens the whiteboard tab and closes the menu |
| StudyRoom.Page.SetActiveTab | src/pages/StudyRoom.tsx:152 | the panel's tab bar sets the tab and nothing else |
| StudyRoom.Page.SetUrlInput | src/pages/StudyRoom.tsx:129 | typing sets the URL box and nothing else |
| StudyRoom.Page.HandleLoadVideo | src/pages/StudyRoom.tsx:49-66 | an accepted input becomes `youtubeUrl` untrimmed and gives the player an id; a rejected one changes nothing and yields "Please enter a valid YouTube URL"; on success the player keeps its handle and sampler for the same id, and destroys the handle and stops the sampler for a new id; play and mute flags are kept |
| StudyRoom.Page.Tick | src/pages/StudyRoom.tsx:102 | a sampler report overwrites `currentVideoTime` with the reported clock, as the `TimeUpdate` step of the replay model |
| StudyRoom.Page.RequestJump | src/pages/StudyRoom.tsx:154 | a jump overwrites `seekToTime`, as the `JumpTo` step |
| StudyRoom.Page.AttemptSeek | src/pages/StudyRoom.tsx:104 | one run of the seek effect seeks and clears `seekToTime` exactly as the `SeekAttempt` step with the player's readiness |
| CommentsPanel.TwoDigits | src/components/CommentsPanel.tsx:52 | `n.toString().padStart(2, '0')` has at least two digits, exactly two iff n < 100 |
| CommentsPanel.TwoDigitsValue | src/components/CommentsPanel.tsx:52 | the two-digit rendering still denotes n |
| CommentsPanel.FormatTime | src/components/CommentsPanel.tsx:49-53 | the label is digits, a colon, two digits |
| CommentsPanel.FormatTimeInverse | src/components/CommentsPanel.tsx:49-53 | the label reads back as the same number of seconds, with whole minutes before the colon and seconds 0..59 after it |
| CommentsPanel.FormatTimeWidth | src/components/CommentsPanel.tsx:49-53 | below 6000 seconds, and only then, the label is exactly `MM:SS` |
| CommentsPanel.FormatTimeInjective | src/components/CommentsPanel.tsx:49-53 | distinct times get distinct labels |
| CommentsPanel.TwoDigitsSmall | src/components/CommentsPanel.tsx:52 | below 100 the rendering is the tens digit then the units digit |
| CommentsPanel.FormatTimeExamples | src/components/CommentsPanel.tsx:49-53 | `formatTime(225)` is `03:45` and `formatTime(440)` is `07:20` |
| CommentsPanel.SeedDisplaysAgree | src/components/CommentsPanel.tsx:25-44 | each seed comment's label is `formatTime` of its stored position |
| CommentsPanel.AdjustLikes | src/components/CommentsPanel.tsx:76-83 | the comments with the id gain the delta in likes; all others are unchanged |
| CommentsPanel.ToggleLike | src/components/CommentsPanel.tsx:72-86 | the id enters the liked set iff it was not there; the matching comments go up by one when newly liked and down by one when unliked; nothing else changes |
| CommentsPanel.ToggleLikeInvolutive | src/components/CommentsPanel.tsx:72-86 | liking twice restores both the comments and the liked set |
| CommentsPanel.ToggleLikePreserves | src/components/CommentsPanel.tsx:72-86 | a toggle keeps `likes = base + (id liked ? 1 : 0)` and the agreement of labels and positions |
| CommentsPanel.Panel.constructor | src/components/CommentsPanel.tsx:25-47 | the panel starts with the two seed comments, an empty draft and nothing liked |
| CommentsPanel.Panel.SetNewComment | src/components/CommentsPanel.tsx:105 | typing sets the draft and nothing else |
| CommentsPanel.Panel.HandleSubmit | src/components/CommentsPanel.tsx:55-70 | a non-blank draft is prepended as a comment by "You" at the current position with its `formatTime` label, 0 likes and the draft's content as typed (not trimmed), and the draft clears; a blank draft changes nothing |
| CommentsPanel.Panel.HandleLike | src/components/CommentsPanel.tsx:72-86 | the state becomes `ToggleLike` of the old state, and the likes invariant holds |
| CommentsPanel.Panel.HandleJumpTo | src/components/CommentsPanel.tsx:88-90 | a jump forwards the comment's stored position, which its label shows |
| CreateRoomDialog.FieldError | src/components/CreateRoomDialog.tsx:27-34 | a field passes iff its trimmed length is between 1 and the limit; a blank field fails with the required message and an over-long one with the too-long message |
| CreateRoomDialog.ValidateRoom | src/components/CreateRoomDialog.tsx:26-35 | the form is valid iff 1 ≤ trimmed title ≤ 100 and 1 ≤ trimmed subject ≤ 50; on success it yields the trimmed values, on failure each field's message exactly when that field fails |
| CreateRoomDialog.LimitIsInclusive | src/components/CreateRoomDialog.tsx:30 | a 100-character title and a 50-character subject pass, though the message says "less than"; 101 characters fail with the title message alone |
| CreateRoomDialog.PaddingIsTrimmed | src/components/CreateRoomDialog.tsx:28 | blanks around the values are neither counted nor kept |
| CreateRoomDialog.Dialog.constructor | src/components/CreateRoomDialog.tsx:44-53 | the dialog starts closed with empty fields |
| CreateRoomDialog.Dialog.SetOpen | src/components/CreateRoomDialog.tsx:69 | `onOpenChange` sets the open flag and keeps the fields |
| CreateRoomDialog.Dialog.SetTitle | src/components/CreateRoomDialog.tsx:94 | typing sets the title and keeps the subject and the open flag |
| CreateRoomDialog.Dialog.SetSubject | src/components/CreateRoomDialog.tsx:111 | typing sets the subject and keeps the title and the open flag |
| CreateRoomDialog.Dialog.Submit | src/components/CreateRoomDialog.tsx:55-66 | valid input yields the trimmed room, resets both fields to "" and closes; invalid input yields the messages and changes nothing |
| CreateRoomDialog.Dialog.Cancel | src/components/CreateRoomDialog.tsx:123 | cancel closes the dialog and creates nothing |
| RoomCard.SliceEnd | src/components/RoomCard.tsx:17 | `slice`'s end: clamped to the length, counted from the back when negative |
| RoomCard.SampleUsers | src/components/RoomCard.tsx:17 | at most four avatars, always a prefix of JD, SM, AK, RP |
| RoomCard.OverflowLabel | src/components/RoomCard.tsx:65-67 | the "+N more" label appears iff there are more than four members |
| RoomCard.SampleUsersPrefix | src/components/RoomCard.tsx:17 | for n ≥ 0 members the avatars are the first min(4, n) initials |
| RoomCard.AvatarsPlusOverflow | src/components/RoomCard.tsx:17 | avatars shown plus the overflow count equal the member count |
| RoomCard.OverflowLabelCount | src/components/RoomCard.tsx:66 | the label is "+", the decimal of members − 4, then " more" |
| RoomCard.NegativeCountShowsAvatars | src/components/RoomCard.tsx:17 | a count of −1 shows three avatars and no label |
| RoomCard.RoomLink | src/components/RoomCard.tsx:20 | the link is `/room/` followed by the id |
| RoomCard.RoomLinkInjective | src/components/RoomCard.tsx:20 | distinct ids link to distinct routes |
| Dashboard.InitialIdsSequential | src/pages/Dashboard.tsx:13-38 | the three initial rooms have ids "1", "2", "3" in order |
| Dashboard.SequentialIdsDistinct | src/pages/Dashboard.tsx:45 | sequential ids, and so the rooms' links, never repeat |
| Dashboard.AppendKeepsSequential | src/pages/Dashboard.tsx:43-52 | appending the next room keeps ids sequential |
| Dashboard.Page.constructor | src/pages/Dashboard.tsx:41 | the catalogue starts as the three initial rooms, with the dialog closed |
| Dashboard.Page.HandleCreateRoom | src/pages/Dashboard.tsx:43-53 | one room is appended with id `String(length + 1)`, the given title and subject, 0 members and "0h 0m"; earlier rooms are untouched and ids stay sequential |
| Dashboard.Page.SubmitDialog | src/pages/Dashboard.tsx:43-53 | a valid dialog submit appends the trimmed room and resets the dialog; an invalid one changes neither |
| AIBotPanel.CountRoleAppend | src/components/AIBotPanel.tsx:29-37 | counting messages by role distributes over appending |
| AIBotPanel.Panel.constructor | src/components/AIBotPanel.tsx:15-23 | the list starts as exactly the assistant's greeting |
| AIBotPanel.Panel.SetNewQuestion | src/components/AIBotPanel.tsx:86 | typing sets the question and nothing else |
| AIBotPanel.Panel.HandleSubmit | src/components/AIBotPanel.tsx:25-46 | a non-blank question is appended verbatim as a user message, one reply is scheduled and the input clears; a blank one changes nothing |
| AIBotPanel.Panel.DeliverReply | src/components/AIBotPanel.tsx:36-42 | a scheduled reply appends the canned assistant message after whatever the list holds, keeping every earlier message |

## Left out

- Loading the YouTube IFrame API is not modelled: the script tag, the global ready callback and the `YT.Player` construction are foreign calls (`src/components/VideoPlayer.tsx:72-92`). `Player.OnPlayerCreated` and `Player.OnPlayerReady` stand for those callbacks.
- A stale ready callback is not suppressed. The model, like the code, has no guard for a player created for an id that has since changed.
- Timers are not modelled as time. `setInterval` firings are `Player.SamplerTick` / `Page.Tick` calls, and the `setTimeout` reply is an `AIBotPanel.Panel.DeliverReply` call.
- React's effect scheduling is not modelled. Each run of the seek effect is an explicit `Page.AttemptSeek` call, so there is no claim that a pending seek is eventually applied.
- `StudyRoom.Page.AttemptSeek`: models the target as `Option<nat>`. `undefined`, which the `!== null` guard also lets through, is not represented.
- Positions are whole seconds. The fractional part that `Math.floor` drops in `formatTime` and floating-point positions are not modelled.
- The progress bar and volume slider are not modelled: they are floating-point arithmetic on the native element (`src/components/VideoPlayer.tsx:48-60`).
- `CommentsPanel.Panel.HandleSubmit`: the `Date.now()` id is a parameter and is required not to be in the liked set already. A clock-generated id is taken to be fresh.
- `AIBotPanel.Panel.HandleSubmit` and `AIBotPanel.Panel.DeliverReply`: their `Date.now()` ids are parameters.
- `AIBotPanel.Panel.DeliverReply`: requires a reply to be pending, as only a scheduled timeout can fire.
- Strings are sequences of code points. Where UTF-16 length differs (characters outside the Basic Multilingual Plane), the model's lengths are not JavaScript's `length`.
- The HTML `maxLength` attributes of the dialog's inputs are not modelled; only the schema's limits are.
- `Text.NatToString`: numbers are unbounded naturals; JavaScript's exponent form for values at or above 1e21 and its loss of exactness above 2^53 are not modelled, since room ids and times never reach them.
- `CreateRoomDialog.Dialog.SetTitle` and `CreateRoomDialog.Dialog.SetSubject` stand for react-hook-form's field binding. Its internal state is not modelled.
- Toasts, animations, routing, layout and styling are not modelled.
- `src/components/Whiteboard.tsx` is not part of this model: it is canvas drawing and file download.
- `src/components/ChatPanel.tsx` is not part of this model: its submit only clears the input.
- `src/components/PauseOverlay.tsx` and `src/components/CollaborationPanel.tsx` are not part of this model: they only present and route. Their callbacks appear as the `Page` methods they call. `CommentsPanel.Panel` and `AIBotPanel.Panel` model one mount of their panel: the collaboration panel's tabs may unmount the inactive panel, which then starts again from its initial state, and a reply scheduled before that lands on no panel.
- The room title shown in the study-room header is a constant and is not modelled.

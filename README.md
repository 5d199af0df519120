# UpDownLoaderBot, modelled in Dafny

UpDownLoaderBot is a Telegram bot written in Python. It watches a chat for
Instagram Reels links and downloads each linked video with instaloader. It
then posts the video back into the chat, with the canonical link of the reel
as its caption. This project models the core of `main.py` and proves
properties of that model. The core has four parts:

- **Link extraction** (`reel_pattern.dfy`, `extraction.dfy`).
  - The link pattern `INSTAGRAM_REEL_PATTERN` becomes a grammar of
    derivations (`Derives`) plus a hand-written matcher (`MatchAt`). The
    matcher takes the choices Python's backtracking engine takes.
  - `re.findall` becomes `Extract`, a left-to-right scan that resumes at the
    end of each match.
  - `fullmatch` becomes `IsLinkOnly`.
  - The caption link becomes `SourceLink`.
- **The permission gate** (`permissions.dfy`). `check_bot_permissions` is an
  ordered chain of rules over the chat type and the bot's membership record.
  It is a pure function of the membership lookup's outcome.
- **The bounded retry download** (`download.dfy`).
  - `download_reel` is a `while` loop with at most `MAX_RETRIES = 3`
    attempts and a pause of `RETRY_DELAY = 2` seconds between attempts.
  - `check_file` validates the downloaded file.
  - Each attempt's outcome is a parameter (`provider(k)`), and the loop
    reports the steps it takes.
- **The message handler** (`dispatch.dfy`). `handle_message` is a method.
  It returns the trace of calls it makes to Telegram, plus whether an
  exception escapes. It is proved equal to a specification function
  (`ExpectedHandling`), and the lemmas state the handler's promises about
  that function. The loop over shortcodes is `HandleReels`, and one
  shortcode is handled by `HandleReel`.

`wrappers.dfy` holds the `Option` and `Result` datatypes.

Behaviour the model keeps from the code:

- **The channel-post quirk.** For a channel post, `update.message` is
  `None`. The first `update.message.chat` inside the per-shortcode `try`
  therefore fails, and every shortcode gets only a thumbs-down reaction.
- **The off-by-one failure count.** When all three attempts fail, the
  `ErrorDownload` raised carries the count 4 (`MAX_RETRIES + 1`). There are
  two pauses and no pause after the last attempt.
- **The untrimmed full-match test.** `fullmatch` runs on the text as it
  arrives, untrimmed, so a leading or trailing space makes the message not
  link-only. The model follows the code.
- **The gate falling through.** When no rule of the chain applies (owner,
  restricted, left and banned records outside a supergroup-administrator
  case), the gate returns `None`. The caller reads that as a denial.

## Model

| member | source | states |
|---|---|---|
| ReelPattern.Run | main.py:31 | a repeated class stays inside the text and stops either at the end of the text or before a character outside the class |
| ReelPattern.RunChars | main.py:31 | every character a repeated class takes belongs to the class, so together with `Run` the run is exactly the maximal stretch of the class |
| ReelPattern.MatchHeadSpec | main.py:31 | the head matcher accepts (scheme `s`, `www.`) exactly when `https?://(?:www\.)?instagram\.com/` is spelled with those choices |
| ReelPattern.MatchTailSound | main.py:31 | the tail `(?:/\?[^ ]*)?/?` the matcher takes is spelled in the text |
| ReelPattern.MatchPathSound | main.py:31 | the `reel/<shortcode>` path and tail the matcher takes is spelled in the text |
| ReelPattern.MatchRestSound | main.py:31 | the optional user segment plus path the matcher takes is spelled in the text |
| ReelPattern.MatchAtSound | main.py:31 | every match the matcher reports is a derivation of the pattern at that position |
| ReelPattern.DerivesFits | main.py:31 | a derivation, and the shortcode it captures, lie inside the text |
| ReelPattern.DerivesCode | main.py:31 | the captured group consists of `[a-zA-Z0-9_-]` characters |
| ReelPattern.MatchTailLongest | main.py:31 | the matcher's tail is the longest tail spelled at that point (greedy query, then optional slash) |
| ReelPattern.MatchPathLongest | main.py:31 | the matcher's path is the longest one spelled there, and a path of equal length captures the same shortcode |
| ReelPattern.ReelRun | main.py:31 | at `reel/` the user-segment class runs exactly over `reel` |
| ReelPattern.BarePathOverReel | main.py:31 | a bare path at `reel/reel/X…` is at most `reel/reel/` (10 characters) long |
| ReelPattern.SegmentBeatsBarePath | main.py:31 | when the optional segment can be taken and the path after it matches, the engine keeps the segment, and that derivation is strictly longer than any bare path |
| ReelPattern.RestLongestWithSegment | main.py:31 | no derivation with a user segment is longer than the matcher's, and one of equal length captures the same shortcode |
| ReelPattern.RestLongestBare | main.py:31 | no derivation without a user segment is longer than the matcher's, and one of equal length captures the same shortcode |
| ReelPattern.MatchRestLongest | main.py:31 | segment plus path: the matcher's choice is the longest, and it fixes the captured shortcode |
| ReelPattern.MatchAtLongest | main.py:31 | the match at a position is the longest derivation starting there, and every derivation of that length captures the same shortcode |
| ReelPattern.MatchAtNoneIff | main.py:31 | the matcher fails at a position exactly when no derivation of the pattern starts there |
| Extraction.CodeIsShortcode | main.py:31 | the group a derivation captures is a non-empty `[a-zA-Z0-9_-]+` word |
| Extraction.ScanShortcodes | main.py:74 | every item `findall` returns is a non-empty shortcode |
| Extraction.ScanItem | main.py:74 | the `i`-th item `findall` returns, whenever there is one, is a non-empty shortcode |
| Extraction.ScanEmptyIff | main.py:74 | `findall` from a position returns nothing exactly when no link starts at or after it |
| Extraction.ScanSkips | main.py:74 | the search passes over every position where no link starts |
| Extraction.ScanMiss | main.py:74 | where no match starts, the search moves on by one character |
| Extraction.ScanHit | main.py:74 | where a match starts, its shortcode comes first and the search resumes at the match's end (no overlap) |
| Extraction.ScanLeftmost | main.py:74 | the first item comes from the leftmost position where a link starts, and the rest comes from the search resumed at that match's end |
| Extraction.ExtractEmptyIff | main.py:74 | a text yields no shortcode exactly when no link of the pattern occurs anywhere in it |
| Extraction.IsLinkOnlyIff | main.py:75 | `fullmatch` succeeds exactly when some derivation spells the whole, untrimmed text |
| Extraction.LinkOnlyOneCode | main.py:74-75 | a link-only text yields exactly one shortcode, and that item is a non-empty shortcode |
| Extraction.MatchAtHead | main.py:31 | the match at a position makes the scheme and `www.` choices of the head matcher there |
| Extraction.MatchAtWhole | main.py:31 | a derivation without tail that spells the whole rest of the text is exactly the match the engine finds |
| Extraction.ReelSegment | main.py:31 | where `reel/` stands, it can be read as the user segment `reel` and its `/` |
| Extraction.ReelReelRest | main.py:31 | after the head, `https://instagram.com/reel/reel/<id>` spells user segment `reel`, a `/` and the path `reel/<id>` |
| Extraction.ReelReelDerives | main.py:31 | `https://instagram.com/reel/reel/<id>` is a derivation with user segment `reel` and shortcode `<id>` |
| Extraction.ReelReelMatch | main.py:31 | on `https://instagram.com/reel/reel/<id>` the engine takes `reel` as the user segment and captures `<id>`, not the second `reel` |
| Extraction.ReelReelLinkOnly | main.py:75 | `https://instagram.com/reel/reel/<id>` is link-only |
| Extraction.ReelReelExtract | main.py:74 | `https://instagram.com/reel/reel/<id>` yields exactly `[<id>]` |
| Extraction.SourceLinkHead | main.py:85 | every caption link starts with the head `https://instagram.com/` (https, no `www.`) and reads `reel/` after it |
| Extraction.SourceLinkDerives | main.py:85 | the caption link of a shortcode is a derivation of the pattern (https, no `www.`, no segment, no tail) |
| Extraction.SourceLinkMatch | main.py:85 | on the caption link the matcher takes the whole text, with the shortcode right after the 27-character prefix |
| Extraction.ScanAtEnd | main.py:74 | no link starts at the end of a text, so the search stops there |
| Extraction.SourceLinkRoundTrip | main.py:85 | the caption link of a shortcode is link-only, and extracting from it gives back exactly that shortcode |
| Extraction.ExtractedSourceLinks | main.py:74-85 | every extracted shortcode's caption link reads back as that shortcode |
| Permissions.RightsHeldIff | main.py:128-131 | the rights loop returns true exactly when every right marked required is held (truthy) |
| Permissions.AdministratorRights | main.py:121-131 | an administrator passes the rights table exactly when all three sending rights are present and true |
| Permissions.NoChatDenied | main.py:109-111 | without a chat the gate returns `False` and asks nothing |
| Permissions.PrivateGranted | main.py:113-114 | a private chat is allowed without a membership lookup |
| Permissions.OtherChatsLookUp | main.py:116 | every non-private chat makes the gate look up the bot's membership |
| Permissions.LookupFailures | main.py:136-138 | a `BadRequest` from the lookup gives `False`; any other exception escapes the gate |
| Permissions.SupergroupAdministratorGranted | main.py:118-119 | a supergroup administrator is allowed whatever its rights |
| Permissions.AdministratorGranted | main.py:121-131 | outside supergroups an administrator is allowed exactly when the three rights are all `True` (missing counts as not held); the gate answers `True` or `False`, never `None` |
| Permissions.PlainMemberGranted | main.py:132-134 | a plain member is allowed in every chat |
| Permissions.OtherStatusFallsThrough | main.py:118-134 | owner, restricted, left and banned records fall off the chain: `None`, not granted |
| Permissions.GrantedIff | main.py:107-138 | the whole gate: exactly private chats, supergroup administrators, fully-righted administrators and plain members are let through |
| Download.CheckFile | main.py:183-189 | `check_file` passes exactly when the file exists and its size is non-zero; a missing file gives the missing-file error (checked first), an existing empty file the empty-file error |
| Download.DownloadReel | main.py:154-180 | the loop returns the saved video's path when some attempt passes, otherwise `ErrorDownload(last error text, final count)`; its steps are exactly the attempts made with a pause between each two |
| Download.FirstPassIff | main.py:158-170 | the loop stops at attempt `k` exactly when attempt `k` passes and every earlier attempt failed |
| Download.FirstPassNoneIff | main.py:158-178 | no attempt passes exactly when all `MAX_RETRIES` attempts fail |
| Download.ScheduleShape | main.py:158-178 | `n` attempts give the trace `Try(1) Pause(2) Try(2) … Try(n)`: `2n-1` steps and `n-1` pauses |
| Download.SucceedsAt | main.py:155-170 | first success at attempt `k`: the result is `temp_downloads/<shortcode>.mp4` after exactly `k` attempts and `k-1` pauses, and the last step is attempt `k` |
| Download.FailsEverywhere | main.py:172-180 | all attempts fail: the error carries `Unexpected error: <last error> for <shortcode>` and the count 4, after 3 attempts and 2 pauses, with no pause after the last attempt |
| Download.FetchFailsIff | main.py:158-180 | the download fails exactly when none of the three attempts passes |
| Download.SuccessHasFile | main.py:164-170 | a successful download ends with an attempt that left a file which exists and is not empty |
| Download.NotVideoRetried | main.py:161-162 | a post that is not a video fails its attempt, and the loop retries it like any other error |
| Dispatch.HandleMessage | main.py:56-104 | the handler's trace and escaping exception are exactly those of `ExpectedHandling` |
| Dispatch.HandleReels | main.py:77-104 | the loop's trace is the concatenation, in extraction order, of each shortcode's trace |
| Dispatch.HandleReel | main.py:78-104 | one shortcode's trace: thumbs-down alone without a `message`; otherwise chat action, download, and then the video or the thumbs-down |
| Dispatch.FetchedAppend | main.py:77-81 | the downloads of a concatenated trace are those of its parts, in order |
| Dispatch.ItemFetched | main.py:79-81 | with a `message`, each shortcode's trace downloads exactly that shortcode, once |
| Dispatch.IgnoredWithoutText | main.py:57-59 | an update without a message, without text or with empty text causes nothing |
| Dispatch.DeniedNoFetch | main.py:61-70 | when the gate denies: nothing is downloaded and nothing is reacted to; the notice is sent exactly when the chat is not a channel and the gate returned; an exception escapes exactly when the gate raised or, outside channels, the notice failed other than by `BadRequest` |
| Dispatch.NoticeBadRequestSwallowed | main.py:62-69 | a `BadRequest` from the permission notice never escapes the handler |
| Dispatch.ItemSuccess | main.py:81-98 | a successful download sends the video with caption `https://instagram.com/reel/<id>`: as a new message followed by deleting the original when the text is link-only, otherwise as a reply that keeps the original; no thumbs-down |
| Dispatch.ItemFailure | main.py:81-104 | a failed download ends that shortcode's trace with a thumbs-down, and no video is sent and nothing is deleted |
| Dispatch.FlattenFetched | main.py:77-81 | when each part downloads one shortcode, the whole trace downloads them in order |
| Dispatch.FlattenAvoids | main.py:77-104 | an action absent from every part is absent from the whole trace |
| Dispatch.FlattenReactions | main.py:102-104 | parts that are each a single thumbs-down form a trace of thumbs-downs only, one per part |
| Dispatch.ItemsKeepOriginal | main.py:93-98 | a text that is not link-only is never deleted |
| Dispatch.DeletedAtMostOnce | main.py:74-92 | whatever the update, the gate and the downloads do, the handler deletes the inbound message at most once: a link-only text carries a single shortcode, and any other text is never deleted |
| Dispatch.GrantedFetchesAll | main.py:74-81 | for a message with text in a chat the gate allows, the handler downloads exactly the extracted shortcodes, in order, and raises nothing |
| Dispatch.NoReelsNoActions | main.py:74-77 | an allowed text with no link causes no action at all |
| Dispatch.ChannelPostOnlyReactions | main.py:57-104 | an allowed channel post with links gets one thumbs-down per shortcode and nothing else |

## Left out

- Telegram traffic is modelled only as the trace of calls the handler makes. These calls are assumed to succeed: the chat actions, `send_video`, `reply_video`, `delete` and `set_reaction`. A failure of one of them inside the per-shortcode `try`, other than the missing `message` of a channel post, is not modelled.
- The permission notice's outcome and the membership lookup's outcome are parameters (`NoticeOutcome`, `Lookup`), because they are calls into Telegram.
- `Permissions.CheckBotPermissions`: the administrator's three sending rights are an input (`Option<bool>` each, `None` for a missing or unset attribute). python-telegram-bot's record classes are not part of this model.
- Only the four chat kinds private, group, supergroup and channel are modelled. `update.effective_chat` is taken to be the effective message's chat, and other kinds of update are "no message".
- instaloader (`Post.from_shortcode`, `download_post`) and the file system (`exists`, `stat`, `open`) are replaced by the outcome of each attempt (`Attempt`). How a file comes to exist is not modelled.
- `asyncio.sleep` is recorded as a `Pause` step in the trace. Time itself is not modelled.
- Concurrency between updates is not modelled; each call of the handler is taken in isolation.
- `exceptions.py` is not part of this model. `ErrorDownload` is taken as a record of its two constructor arguments.
- Logging (`logger.info` and `logger.error`) is not modelled, because it has no effect on behaviour.
- These parts of `main.py` are start-up and handler registration, not the core, so they are not modelled: the `/start` command, `clean_temp_directory`, `error_handler`, `main`, and the loading of the token from `.env`.
- `ReelPattern.MatchAt`: it is argued, not proved, that the hand-written matcher takes the choices of Python's backtracking engine. What is proved is that it returns the longest derivation at each position. It is also proved that any derivation of that length captures the same shortcode. No model of the backtracking engine exists to compare against.

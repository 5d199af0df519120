/**
 * The message handler of main.py, `handle_message`: it picks the message of an
 * update, runs the permission gate, and then fetches and sends every reel the
 * text links to, one after the other.  What it does to Telegram is recorded
 * as a trace of `Action`s; what Telegram and instaloader answer enters as
 * parameters.
 */
module Dispatch {
  import opened Wrappers
  import opened ReelPattern
  import opened Extraction
  import opened Permissions
  import opened Download

  /** A Telegram message: the chat it was posted in and its text, if it has one. */
  datatype Message = Message(chat: ChatType, text: Option<string>)

  /** An update: a message in a chat, a post in a channel, or neither (another kind of update). */
  datatype Update = Update(message: Option<Message>, channelPost: Option<Message>)

  /** What Telegram does with the permission notice: deliver it, reject it with `BadRequest`, or fail otherwise. */
  datatype NoticeOutcome = Delivered | RejectedBadRequest | FailedOther

  /** The calls the handler makes to Telegram, and the downloads it starts. */
  datatype Action =
    | PermissionNotice                        // the reply asking for sending rights
    | UploadVideoAction                       // `send_chat_action(UPLOAD_VIDEO)`
    | Fetch(shortcode: string, steps: seq<Step>)  // `download_reel(shortcode)` and what it did
    | SendVideo(path: string, caption: string)    // a standalone video in the chat
    | DeleteOriginal                          // the inbound message deleted
    | ReplyVideo(path: string, caption: string)   // a video replying to the inbound message
    | ThumbsDown                              // a thumbs-down reaction on the inbound message

  /** The actions of one call of the handler, and whether an exception escaped it. */
  datatype Handling = Handling(actions: seq<Action>, raised: bool)

  /** `update.message or update.channel_post`. */
  function EffectiveMessage(u: Update): Option<Message> {
    match u.message
    case Some(m) => Some(m)
    case None => u.channelPost
  }

  /**
   * The actions for one shortcode.  `hasMessage` says whether the update has a
   * `message`: for a channel post it has not, the first chat action fails on
   * it, and the shortcode gets only the thumbs-down reaction.  Otherwise the
   * chat action and the download come first, and what follows depends on
   * how the download ends.
   */
  function ItemActions(hasMessage: bool, id: string, linkOnly: bool, provider: nat -> Attempt): seq<Action> {
    if !hasMessage then [ThumbsDown]
    else [UploadVideoAction, Fetch(id, Schedule(AttemptsMade(provider)))] + Delivery(id, linkOnly, FetchResult(id, provider))
  }

  /** What follows the download of a shortcode: the video sent, or the thumbs-down. */
  function Delivery(id: string, linkOnly: bool, fetched: Result<string, ErrorDownload>): seq<Action> {
    match fetched
    case Failure(_) => [ThumbsDown]
    case Success(path) =>
      if linkOnly then [UploadVideoAction, SendVideo(path, SourceLink(id)), DeleteOriginal]
      else [UploadVideoAction, ReplyVideo(path, SourceLink(id))]
  }

  /** The actions for each shortcode, where `providers(j)` is what the download of shortcode `j` meets. */
  function ItemTraces(hasMessage: bool, ids: seq<string>, linkOnly: bool, providers: nat -> nat -> Attempt): (traces: seq<seq<Action>>)
    ensures |traces| == |ids|
  {
    seq(|ids|, j requires 0 <= j < |ids| => ItemActions(hasMessage, ids[j], linkOnly, providers(j)))
  }

  /** The traces one after the other. */
  function Flatten(parts: seq<seq<Action>>): seq<Action> {
    if |parts| == 0 then [] else Flatten(parts[..|parts| - 1]) + parts[|parts| - 1]
  }

  /** What the handler does when the gate does not let the message through. */
  function DeniedHandling(chat: ChatType, d: Decision, notice: NoticeOutcome): Handling {
    if d.check == Raises then Handling([], true)
    else if chat == Channel then Handling([], false)
    else Handling([PermissionNotice], notice == FailedOther)
  }

  /** What `handle_message` does with the update. */
  function ExpectedHandling(u: Update, lookup: Lookup, notice: NoticeOutcome, providers: nat -> nat -> Attempt): Handling {
    match EffectiveMessage(u)
    case None => Handling([], false)
    case Some(m) =>
      match m.text
      case None => Handling([], false)
      case Some(text) =>
        if text == "" then Handling([], false)
        else
          var d := CheckBotPermissions(Some(m.chat), lookup);
          if !Granted(d) then DeniedHandling(m.chat, d, notice)
          else
            var ids := Extract(text);
            Handling(Flatten(ItemTraces(u.message.Some?, ids, IsLinkOnly(text), providers)), false)
  }

  /**
   * `handle_message(update)`, where `lookup` is what the membership lookup
   * does, `notice` what becomes of the permission notice and `providers(j)`
   * what the attempts to download the `j`-th shortcode meet.
   */
  method HandleMessage(u: Update, lookup: Lookup, notice: NoticeOutcome, providers: nat -> nat -> Attempt)
    returns (actions: seq<Action>, raised: bool)
    ensures Handling(actions, raised) == ExpectedHandling(u, lookup, notice, providers)
  {
    actions, raised := [], false;
    var effective := EffectiveMessage(u);
    if effective.None? || effective.value.text.None? || effective.value.text.value == "" {
      return;
    }
    var m := effective.value;
    var text := m.text.value;

    var decision := CheckBotPermissions(Some(m.chat), lookup);
    if decision.check == Raises {
      return [], true;
    }
    if !Granted(decision) {
      if m.chat != Channel {
        actions := [PermissionNotice];
        // A `BadRequest` from the reply is swallowed; any other failure escapes.
        raised := notice == FailedOther;
      }
      return;
    }

    actions := HandleReels(u.message.Some?, Extract(text), IsLinkOnly(text), providers);
  }

  /** The handler's loop over the extracted shortcodes, each in its own `try`. */
  method HandleReels(hasMessage: bool, reels: seq<string>, linkOnly: bool, providers: nat -> nat -> Attempt)
    returns (actions: seq<Action>)
    ensures actions == Flatten(ItemTraces(hasMessage, reels, linkOnly, providers))
  {
    ghost var traces := ItemTraces(hasMessage, reels, linkOnly, providers);
    actions := [];
    for i := 0 to |reels|
      invariant actions == Flatten(traces[..i])
    {
      var item := HandleReel(hasMessage, reels[i], linkOnly, providers(i));
      FlattenStep(traces, i, item);
      actions := actions + item;
    }
    assert traces[..|reels|] == traces;
  }

  /** One pass of the handler's loop: the `try` block for one shortcode and its `except` clause. */
  method HandleReel(hasMessage: bool, id: string, linkOnly: bool, provider: nat -> Attempt)
    returns (item: seq<Action>)
    ensures item == ItemActions(hasMessage, id, linkOnly, provider)
  {
    if !hasMessage {
      // `update.message.chat` fails on a channel post, inside the `try`.
      return [ThumbsDown];
    }
    var result, steps := DownloadReel(id, provider);
    item := [UploadVideoAction, Fetch(id, steps)];
    match result
    case Failure(_) =>
      item := item + [ThumbsDown];
    case Success(path) =>
      var caption := SourceLink(id);
      if linkOnly {
        item := item + [UploadVideoAction, SendVideo(path, caption), DeleteOriginal];
      } else {
        item := item + [UploadVideoAction, ReplyVideo(path, caption)];
      }
  }

  // ---------------------------------------------------------------------
  // Reading traces
  // ---------------------------------------------------------------------

  /** The shortcodes a trace downloads, in order. */
  function Fetched(actions: seq<Action>): seq<string> {
    if |actions| == 0 then []
    else
      Fetched(actions[..|actions| - 1]) +
      (if actions[|actions| - 1].Fetch? then [actions[|actions| - 1].shortcode] else [])
  }

  /** How many times an action occurs in a trace. */
  function Occurrences(actions: seq<Action>, a: Action): nat {
    multiset(actions)[a]
  }

  lemma {:induction false} FetchedAppend(a: seq<Action>, b: seq<Action>)
    ensures Fetched(a + b) == Fetched(a) + Fetched(b)
    decreases |b|
  {
    if |b| == 0 {
      assert a + b == a;
    } else {
      var b' := b[..|b| - 1];
      assert (a + b)[..|a + b| - 1] == a + b';
      assert (a + b)[|a + b| - 1] == b[|b| - 1];
      FetchedAppend(a, b');
    }
  }

  /** A trace without downloads downloads nothing. */
  lemma {:induction false} FetchedNone(s: seq<Action>)
    requires forall i :: 0 <= i < |s| ==> !s[i].Fetch?
    ensures Fetched(s) == []
  {
    if |s| > 0 {
      FetchedNone(s[..|s| - 1]);
    }
  }

  /** For a message in a chat, the actions for a shortcode download that shortcode, once. */
  lemma ItemFetched(id: string, linkOnly: bool, provider: nat -> Attempt)
    ensures Fetched(ItemActions(true, id, linkOnly, provider)) == [id]
  {
    var head := [UploadVideoAction, Fetch(id, Schedule(AttemptsMade(provider)))];
    var rest := Delivery(id, linkOnly, FetchResult(id, provider));
    assert head[..1] == [UploadVideoAction];
    FetchedNone([UploadVideoAction]);
    FetchedNone(rest);
    FetchedAppend(head, rest);
  }

  // ---------------------------------------------------------------------
  // Properties of the handler
  // ---------------------------------------------------------------------

  /** An update without a message, or whose message has no text or an empty text, is ignored. */
  lemma IgnoredWithoutText(u: Update, lookup: Lookup, notice: NoticeOutcome, providers: nat -> nat -> Attempt)
    requires EffectiveMessage(u).None? || EffectiveMessage(u).value.text.None? || EffectiveMessage(u).value.text == Some("")
    ensures ExpectedHandling(u, lookup, notice, providers) == Handling([], false)
  {
  }

  /**
   * When the gate does not let a message through, nothing is downloaded and
   * nothing gets a reaction; the notice goes out exactly when the chat is not
   * a channel and the gate returned, and only a failure of the notice other
   * than `BadRequest`, or an exception from the gate, escapes.
   */
  lemma DeniedNoFetch(u: Update, lookup: Lookup, notice: NoticeOutcome, providers: nat -> nat -> Attempt)
    requires EffectiveMessage(u).Some? && EffectiveMessage(u).value.text.Some? && EffectiveMessage(u).value.text != Some("")
    requires !Granted(CheckBotPermissions(Some(EffectiveMessage(u).value.chat), lookup))
    ensures var h := ExpectedHandling(u, lookup, notice, providers);
      var chat := EffectiveMessage(u).value.chat;
      var d := CheckBotPermissions(Some(chat), lookup);
      && Fetched(h.actions) == []
      && Occurrences(h.actions, ThumbsDown) == 0
      && (PermissionNotice in h.actions <==> chat != Channel && d.check.Returns?)
      && (h.raised <==> d.check == Raises || (chat != Channel && notice == FailedOther))
  {
    var h := ExpectedHandling(u, lookup, notice, providers);
    if |h.actions| > 0 {
      assert h.actions == [PermissionNotice];
      assert Fetched(h.actions) == Fetched([]) + [];
    }
  }

  /** A rejected notice does not make the handler fail. */
  lemma NoticeBadRequestSwallowed(u: Update, lookup: Lookup, providers: nat -> nat -> Attempt)
    requires EffectiveMessage(u).Some? && EffectiveMessage(u).value.text.Some? && EffectiveMessage(u).value.text != Some("")
    requires CheckBotPermissions(Some(EffectiveMessage(u).value.chat), lookup).check.Returns?
    ensures !ExpectedHandling(u, lookup, RejectedBadRequest, providers).raised
  {
  }

  /**
   * A shortcode whose download succeeds: a link-only message is answered by a
   * standalone video captioned with the canonical link and then deleted; any
   * other message gets the video as a reply and stays.  Nothing gets a reaction.
   */
  lemma ItemSuccess(id: string, linkOnly: bool, provider: nat -> Attempt)
    requires FetchResult(id, provider).Success?
    ensures var item := ItemActions(true, id, linkOnly, provider);
      var path := FetchResult(id, provider).value;
      && ThumbsDown !in item
      && Fetched(item) == [id]
      && (linkOnly ==> item[|item| - 2..] == [SendVideo(path, "https://instagram.com/reel/" + id), DeleteOriginal])
      && (!linkOnly ==> item[|item| - 1] == ReplyVideo(path, "https://instagram.com/reel/" + id) && DeleteOriginal !in item)
  {
    ItemFetched(id, linkOnly, provider);
  }

  /** A shortcode whose download fails gets a thumbs-down, and no video is sent for it. */
  lemma ItemFailure(id: string, linkOnly: bool, provider: nat -> Attempt)
    requires FetchResult(id, provider).Failure?
    ensures var item := ItemActions(true, id, linkOnly, provider);
      && item[|item| - 1] == ThumbsDown
      && Fetched(item) == [id]
      && forall a :: a in item ==> !a.SendVideo? && !a.ReplyVideo? && !a.DeleteOriginal?
  {
    ItemFetched(id, linkOnly, provider);
  }

  /** Taking one more trace appends it. */
  lemma FlattenStep(parts: seq<seq<Action>>, i: nat, p: seq<Action>)
    requires i < |parts| && parts[i] == p
    ensures Flatten(parts[..i + 1]) == Flatten(parts[..i]) + p
  {
    assert parts[..i + 1][..i] == parts[..i];
  }

  /** When each trace downloads one shortcode, the traces together download those shortcodes in order. */
  lemma {:induction false} FlattenFetched(parts: seq<seq<Action>>, codes: seq<string>)
    requires |parts| == |codes|
    requires forall j :: 0 <= j < |parts| ==> Fetched(parts[j]) == [codes[j]]
    ensures Fetched(Flatten(parts)) == codes
  {
    if |parts| > 0 {
      var k := |parts| - 1;
      FlattenFetched(parts[..k], codes[..k]);
      FetchedAppend(Flatten(parts[..k]), parts[k]);
      assert codes == codes[..k] + [codes[k]];
    }
  }

  /** An action that occurs in none of the traces does not occur in them together. */
  lemma {:induction false} FlattenAvoids(parts: seq<seq<Action>>, a: Action)
    requires forall j :: 0 <= j < |parts| ==> a !in parts[j]
    ensures a !in Flatten(parts)
  {
    if |parts| > 0 {
      FlattenAvoids(parts[..|parts| - 1], a);
    }
  }

  /** Traces that are each a single thumbs-down give one thumbs-down per trace and nothing else. */
  lemma {:induction false} FlattenReactions(parts: seq<seq<Action>>)
    requires forall j :: 0 <= j < |parts| ==> parts[j] == [ThumbsDown]
    ensures |Flatten(parts)| == |parts|
    ensures forall i :: 0 <= i < |Flatten(parts)| ==> Flatten(parts)[i] == ThumbsDown
  {
    if |parts| > 0 {
      FlattenReactions(parts[..|parts| - 1]);
    }
  }

  /** A message that is not link-only is never deleted. */
  lemma ItemsKeepOriginal(hasMessage: bool, ids: seq<string>, providers: nat -> nat -> Attempt)
    ensures DeleteOriginal !in Flatten(ItemTraces(hasMessage, ids, false, providers))
  {
    var parts := ItemTraces(hasMessage, ids, false, providers);
    forall j | 0 <= j < |parts|
      ensures DeleteOriginal !in parts[j]
    {
      assert parts[j] == ItemActions(hasMessage, ids[j], false, providers(j));
    }
    FlattenAvoids(parts, DeleteOriginal);
  }

  /**
   * The inbound message is deleted at most once: only a link-only text is
   * ever deleted, and it carries exactly one shortcode.
   */
  lemma DeletedAtMostOnce(u: Update, lookup: Lookup, notice: NoticeOutcome, providers: nat -> nat -> Attempt)
    ensures Occurrences(ExpectedHandling(u, lookup, notice, providers).actions, DeleteOriginal) <= 1
  {
    var h := ExpectedHandling(u, lookup, notice, providers);
    match EffectiveMessage(u)
    case None =>
    case Some(m) =>
      match m.text
      case None =>
      case Some(text) =>
        if text != "" && Granted(CheckBotPermissions(Some(m.chat), lookup)) {
          var parts := ItemTraces(u.message.Some?, Extract(text), IsLinkOnly(text), providers);
          assert h.actions == Flatten(parts);
          if IsLinkOnly(text) {
            LinkOnlyOneCode(text);
            assert Flatten(parts) == parts[0];
            assert parts[0] == ItemActions(u.message.Some?, Extract(text)[0], true, providers(0));
          } else {
            ItemsKeepOriginal(u.message.Some?, Extract(text), providers);
          }
        }
  }

  /** A message let through in a chat has each of its shortcodes downloaded once, in order, and never fails the handler. */
  lemma GrantedFetchesAll(u: Update, lookup: Lookup, notice: NoticeOutcome, providers: nat -> nat -> Attempt)
    requires u.message.Some? && u.message.value.text.Some? && u.message.value.text != Some("")
    requires Granted(CheckBotPermissions(Some(u.message.value.chat), lookup))
    ensures var h := ExpectedHandling(u, lookup, notice, providers);
      Fetched(h.actions) == Extract(u.message.value.text.value) && !h.raised
  {
    var text := u.message.value.text.value;
    var ids := Extract(text);
    var parts := ItemTraces(true, ids, IsLinkOnly(text), providers);
    forall j | 0 <= j < |parts|
      ensures Fetched(parts[j]) == [ids[j]]
    {
      ItemFetched(ids[j], IsLinkOnly(text), providers(j));
    }
    FlattenFetched(parts, ids);
  }

  /** A text without links, once let through, leads to no action at all. */
  lemma NoReelsNoActions(u: Update, lookup: Lookup, notice: NoticeOutcome, providers: nat -> nat -> Attempt)
    requires EffectiveMessage(u).Some? && EffectiveMessage(u).value.text.Some?
    requires Granted(CheckBotPermissions(Some(EffectiveMessage(u).value.chat), lookup))
    requires forall i :: 0 <= i <= |EffectiveMessage(u).value.text.value| ==> !LinkAt(EffectiveMessage(u).value.text.value, i)
    ensures ExpectedHandling(u, lookup, notice, providers) == Handling([], false)
  {
    ExtractEmptyIff(EffectiveMessage(u).value.text.value);
  }

  /**
   * A channel post let through gets one thumbs-down per shortcode and nothing
   * else, because the handler reads the update's `message`, which a channel
   * post does not have.
   */
  lemma ChannelPostOnlyReactions(u: Update, lookup: Lookup, notice: NoticeOutcome, providers: nat -> nat -> Attempt)
    requires u.message.None? && u.channelPost.Some? && u.channelPost.value.text.Some? && u.channelPost.value.text != Some("")
    requires Granted(CheckBotPermissions(Some(u.channelPost.value.chat), lookup))
    ensures var h := ExpectedHandling(u, lookup, notice, providers);
      && |h.actions| == |Extract(u.channelPost.value.text.value)|
      && (forall j :: 0 <= j < |h.actions| ==> h.actions[j] == ThumbsDown)
      && !h.raised
  {
    var text := u.channelPost.value.text.value;
    var parts := ItemTraces(false, Extract(text), IsLinkOnly(text), providers);
    forall j | 0 <= j < |parts|
      ensures parts[j] == [ThumbsDown]
    {
      assert parts[j] == ItemActions(false, Extract(text)[j], IsLinkOnly(text), providers(j));
    }
    FlattenReactions(parts);
  }
}

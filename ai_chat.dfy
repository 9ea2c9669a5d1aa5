/**
  The AI enhancement panel (Frontend/src/components/codes/AI.jsx): the
  fixed list of supported requests, the keyword match that gates a request,
  the field-by-field merge of the server's reply, and the resizable panel.
*/
module AIChat {
  import opened Wrappers
  import opened Text
  import opened Codes
  import opened SnippetContext

  // ---------------------------------------------------------------------
  // Suggestions and intent matching

  /** A supported request; the icon shown beside it is left out. */
  datatype Suggestion = Suggestion(text: string, description: string)

  /** The ten supported requests, in the order they are offered and matched. */
  const Suggestions: seq<Suggestion> := [
    Suggestion("Change background color to light gray", "Modify the background color of the page or section"),
    Suggestion("Change text color to black", "Update the text color of the content"),
    Suggestion("Increase font size of headings", "Make the headings more prominent"),
    Suggestion("Change button color to blue", "Update button styles with a new color"),
    Suggestion("Center align all text", "Align text content to center"),
    Suggestion("Change font family to Roboto", "Apply Roboto font to all text"),
    Suggestion("Increase padding inside containers", "Add more spacing inside elements"),
    Suggestion("Add hover effect on links", "Style links to react on hover"),
    Suggestion("Round the corners of cards", "Apply border-radius to card components"),
    Suggestion("Change navbar background to white", "Customize the navbar section")
  ]

  /** `getContextualSuggestions`: nothing without an entry for the bound
      snippet, otherwise all ten suggestions in order. */
  function GetContextualSuggestions(info: Option<Entry>): (r: seq<Suggestion>)
    ensures info.None? ==> r == []
    ensures info.Some? ==> r == Suggestions && |r| == 10
  {
    if info.None? then [] else Suggestions
  }

  /** The words of a suggestion: its lower-cased text split at spaces. */
  function KeyWords(text: string): (words: seq<string>)
    ensures |words| >= 1
    ensures forall k :: 0 <= k < |words| ==> ' ' !in words[k]
  {
    Split(ToLower(text), ' ')
  }

  /** The test `matchIntent` applies to one suggestion: some key word of it
      occurs in the lower-cased input. */
  predicate Qualifies(input: string, s: Suggestion) {
    var words := KeyWords(s.text);
    exists k | 0 <= k < |words| :: Includes(input, words[k])
  }

  /** `matchIntent`: the first offered suggestion that qualifies for the
      lower-cased input, or none when none does. */
  function MatchIntent(userInput: string, info: Option<Entry>): (r: Option<Suggestion>)
    ensures var intents := GetContextualSuggestions(info);
            r.Some? ==> exists i :: 0 <= i < |intents| && intents[i] == r.value
                                    && Qualifies(ToLower(userInput), intents[i])
                                    && forall j :: 0 <= j < i ==> !Qualifies(ToLower(userInput), intents[j])
    ensures var intents := GetContextualSuggestions(info);
            r.None? <==> forall j :: 0 <= j < |intents| ==> !Qualifies(ToLower(userInput), intents[j])
  {
    var intents := GetContextualSuggestions(info);
    var input := ToLower(userInput);
    match Find(intents, s => Qualifies(input, s))
    case None => None
    case Some(i) => Some(intents[i])
  }

  /** Whatever occurs in a string occurs in any string equal to it
      ignoring case, once both are lower-cased: typing a suggestion's text,
      in any case, always finds a match while the panel has a snippet. */
  lemma TypedSuggestionIsMatched(userInput: string, info: Option<Entry>, k: nat)
    requires info.Some? && k < |Suggestions|
    requires ToLower(userInput) == ToLower(Suggestions[k].text)
    ensures MatchIntent(userInput, info).Some?
  {
    var s := Suggestions[k];
    var words := KeyWords(s.text);
    SplitPiecesOccurIn(ToLower(s.text), ' ', 0);
    assert Includes(ToLower(userInput), words[0]);
    assert Qualifies(ToLower(userInput), s);
    assert GetContextualSuggestions(info)[k] == s;
  }

  // ---------------------------------------------------------------------
  // Request payload and reply merge

  /** A field of the snippet's current code, `codes?.x || ''`. */
  function CurrentField(codes: Option<PartialCodes>, lang: Lang): (r: string)
    ensures codes.None? ==> r == ""
    ensures codes.Some? && codes.value.Get(lang).Some? ==> r == codes.value.Get(lang).value
    ensures codes.Some? && codes.value.Get(lang).None? ==> r == ""
  {
    if codes.None? then "" else Or(codes.value.Get(lang), "")
  }

  /** The code sent with a request: each field of the snippet's code, or
      `''` where it has none. */
  function Payload(codes: Option<PartialCodes>): (p: Codes)
    ensures forall lang :: p.Get(lang) == CurrentField(codes, lang)
  {
    Codes(CurrentField(codes, Html), CurrentField(codes, Css), CurrentField(codes, Js))
  }

  /** The code the snippet takes after a successful reply,
      `updated.x || codes?.x || ''` per field: a non-empty reply field wins,
      and a field the reply leaves out or empties keeps the current one. */
  function MergeReply(reply: PartialCodes, codes: Option<PartialCodes>): (r: Codes)
    ensures forall lang :: r.Get(lang) == Or(reply.Get(lang), Payload(codes).Get(lang))
  {
    var current := Payload(codes);
    Codes(Or(reply.html, current.html),
          Or(reply.css, current.css),
          Or(reply.js, current.js))
  }

  /** A reply that fills every field replaces the code outright. */
  lemma FullReplyReplaces(reply: Codes, codes: Option<PartialCodes>)
    requires forall lang :: reply.Get(lang) != ""
    ensures MergeReply(Whole(reply), codes) == reply
  {
    var r := MergeReply(Whole(reply), codes);
    assert r.Get(Html) == reply.Get(Html);
    assert r.Get(Css) == reply.Get(Css);
    assert r.Get(Js) == reply.Get(Js);
  }

  /** A reply without any field leaves the code exactly as it was sent. */
  lemma EmptyReplyKeeps(codes: Option<PartialCodes>)
    ensures MergeReply(PartialCodes(None, None, None), codes) == Payload(codes)
  {
    var r := MergeReply(PartialCodes(None, None, None), codes);
    assert r.Get(Html) == Payload(codes).Get(Html);
    assert r.Get(Css) == Payload(codes).Get(Css);
    assert r.Get(Js) == Payload(codes).Get(Js);
  }

  /** Merging is idempotent: merging the same reply into its own result
      changes nothing. */
  lemma MergeIdempotent(reply: PartialCodes, codes: Option<PartialCodes>)
    ensures MergeReply(reply, Some(Whole(MergeReply(reply, codes)))) == MergeReply(reply, codes)
  {
    var once := MergeReply(reply, codes);
    var twice := MergeReply(reply, Some(Whole(once)));
    assert twice.Get(Html) == once.Get(Html);
    assert twice.Get(Css) == once.Get(Css);
    assert twice.Get(Js) == once.Get(Js);
  }

  // ---------------------------------------------------------------------
  // Sending a request

  const NotRecognizedText: string := "Request not recognized. Please choose one of the supported enhancements."
  const ProcessingText: string := "\U{1F916} Processing your request\U{2026} hang tight!"
  const UpdatedText: string := "Code updated successfully! Hit 'Run' to view changes in the live preview."
  const FailedText: string := "Failed to update code. Please try again."

  /** How the enhancement request ends: a parsed reply from an ok response,
      a response that is not ok, or an exception (network or parse). */
  datatype EnhanceOutcome = Replied(reply: PartialCodes) | NotOk | Thrown

  /** A snippet id counts as bound only when it is present and non-empty,
      as the truthiness test `!currentSnippet` has it. */
  predicate Bound(current: Option<SnippetId>) {
    current.Some? && current.value != ""
  }

  /** The entry of the bound snippet once a matched request settles: three
      more messages (the input, the progress note and the verdict) and, on
      a reply, the merged code. */
  function Requested(info: Entry, trimmed: string, outcome: EnhanceOutcome): (e: Entry)
    ensures e.name == info.name
    ensures e.chatMessages.Some?
    ensures e.chatMessages.value == info.chatMessages.GetOr([])
              + [Message(trimmed, User), Message(ProcessingText, Bot),
                 Message(if outcome.Replied? then UpdatedText else FailedText, Bot)]
    ensures outcome.Replied? ==> e.codes == Some(Whole(MergeReply(outcome.reply, info.codes)))
    ensures !outcome.Replied? ==> e.codes == info.codes
  {
    var messages := info.chatMessages.GetOr([]) + [Message(trimmed, User), Message(ProcessingText, Bot)];
    match outcome
    case Replied(reply) =>
      info.(codes := Some(Whole(MergeReply(reply, info.codes))), chatMessages := Some(messages + [Message(UpdatedText, Bot)]))
    case _ =>
      info.(chatMessages := Some(messages + [Message(FailedText, Bot)]))
  }

  /** A request on its way: the snippet id and the code the handler saw
      when it was sent. The handler's closure keeps both, so the settle step
      writes under that id and merges over that code, whatever happened to
      the store meanwhile. */
  datatype Pending = Pending(id: SnippetId, codes: Option<PartialCodes>)

  /** The table after the send step of a matched request: the trimmed input
      and the progress note are appended to entry `id`. */
  function Sent(data: map<SnippetId, Entry>, id: SnippetId, trimmed: string): (r: map<SnippetId, Entry>)
    ensures r.Keys == data.Keys + {id}
    ensures Messages(r, id) == Messages(data, id) + [Message(trimmed, User), Message(ProcessingText, Bot)]
    ensures EntryOf(r, id).codes == EntryOf(data, id).codes && EntryOf(r, id).name == EntryOf(data, id).name
    ensures forall other :: other != id && other in data ==> r[other] == data[other]
  {
    var user, progress := Message(trimmed, User), Message(ProcessingText, Bot);
    var r := Appended(Appended(data, id, user), id, progress);
    assert Messages(data, id) + [user] + [progress] == Messages(data, id) + [user, progress];
    r
  }

  /** The verdict message of an outcome. */
  function Verdict(outcome: EnhanceOutcome): (m: Message)
    ensures m.sender == Bot
    ensures outcome.Replied? <==> m.text == UpdatedText
  {
    Message(if outcome.Replied? then UpdatedText else FailedText, Bot)
  }

  /** The table after the settle step of request `p`: on a reply, entry
      `p.id` takes the reply merged over the code sent; either way the
      verdict is appended to its messages. */
  function Landed(data: map<SnippetId, Entry>, p: Pending, outcome: EnhanceOutcome): (r: map<SnippetId, Entry>)
    ensures r.Keys == data.Keys + {p.id}
    ensures Messages(r, p.id) == Messages(data, p.id) + [Verdict(outcome)]
    ensures outcome.Replied? ==> EntryOf(r, p.id).codes == Some(Whole(MergeReply(outcome.reply, p.codes)))
    ensures !outcome.Replied? ==> EntryOf(r, p.id).codes == EntryOf(data, p.id).codes
    ensures EntryOf(r, p.id).name == EntryOf(data, p.id).name
    ensures forall other :: other != p.id && other in data ==> r[other] == data[other]
  {
    match outcome
    case Replied(reply) =>
      var replaced := CodeReplaced(data, p.id, Whole(MergeReply(reply, p.codes)));
      assert Messages(replaced, p.id) == Messages(data, p.id);
      Appended(replaced, p.id, Verdict(outcome))
    case _ => Appended(data, p.id, Verdict(outcome))
  }

  /** With nothing in between, the send step and the settle step together
      replace the bound entry by `Requested`. */
  lemma RequestSteps(data: map<SnippetId, Entry>, id: SnippetId, trimmed: string, outcome: EnhanceOutcome)
    requires id in data
    ensures Landed(Sent(data, id, trimmed), Pending(id, data[id].codes), outcome)
            == data[id := Requested(data[id], trimmed, outcome)]
  {
    var info := data[id];
    var before := info.chatMessages.GetOr([]);
    var user, progress := Message(trimmed, User), Message(ProcessingText, Bot);
    var sent := Sent(data, id, trimmed);
    assert sent == data[id := info.(chatMessages := Some(before + [user, progress]))];
    assert before + [user, progress] + [Verdict(outcome)] == before + [user, progress, Verdict(outcome)];
  }

  /** Closing the panel while a request is pending clears every chat, but
      the request still settles under the id it captured: that entry ends
      with the verdict as its only message and, on a reply, with the merged
      code. */
  lemma SettleAfterClose(data: map<SnippetId, Entry>, p: Pending, outcome: EnhanceOutcome)
    ensures Messages(Landed(ChatsCleared(data), p, outcome), p.id) == [Verdict(outcome)]
    ensures outcome.Replied? ==>
              EntryOf(Landed(ChatsCleared(data), p, outcome), p.id).codes == Some(Whole(MergeReply(outcome.reply, p.codes)))
  {
    ClearedHasNoMessages(data, p.id);
  }

  /** Two requests for the same snippet sent before either settles (Enter is
      not blocked while loading): the chat shows both inputs and progress
      notes, then both verdicts in the order the replies arrive; the code is
      the later reply merged over the code the second request saw, so the
      earlier reply's changes are lost. */
  lemma OverlappingRequests(data: map<SnippetId, Entry>, id: SnippetId, first: string, second: string,
                            firstOutcome: EnhanceOutcome, secondOutcome: EnhanceOutcome)
    requires id in data
    ensures var p1 := Pending(id, data[id].codes);
            var sent := Sent(Sent(data, id, first), id, second);
            var p2 := Pending(id, EntryOf(sent, id).codes);
            var r := Landed(Landed(sent, p1, firstOutcome), p2, secondOutcome);
            Messages(r, id) == Messages(data, id)
              + [Message(first, User), Message(ProcessingText, Bot), Message(second, User), Message(ProcessingText, Bot),
                 Verdict(firstOutcome), Verdict(secondOutcome)]
            && p2.codes == data[id].codes
            && (secondOutcome.Replied? ==> EntryOf(r, id).codes == Some(Whole(MergeReply(secondOutcome.reply, data[id].codes))))
  {
    var before := Messages(data, id);
    var u1, u2, progress := Message(first, User), Message(second, User), Message(ProcessingText, Bot);
    var v1, v2 := Verdict(firstOutcome), Verdict(secondOutcome);
    assert before + [u1, progress] + [u2, progress] + [v1] + [v2] == before + [u1, progress, u2, progress, v1, v2];
  }

  // ---------------------------------------------------------------------
  // Resizing

  const MinWidth: int := 350
  const MaxWidth: int := 800
  const MinHeight: int := 400
  const MaxHeight: int := 800

  datatype Size = Size(width: int, height: int)

  /** Where a resize drag started: the pointer and the panel's size. */
  datatype ResizeStart = ResizeStart(x: int, y: int, width: int, height: int)

  predicate InBounds(width: int, height: int) {
    MinWidth <= width <= MaxWidth && MinHeight <= height <= MaxHeight
  }

  /** `Math.max(lo, Math.min(hi, v))`: `v` pulled into `[lo, hi]`. */
  function Clamp(lo: int, hi: int, v: int): (r: int)
    requires lo <= hi
    ensures lo <= r <= hi
    ensures lo <= v <= hi ==> r == v
    ensures v < lo ==> r == lo
    ensures v > hi ==> r == hi
  {
    if v < lo then lo else if v > hi then hi else v
  }

  /** The size a drag in `direction` to the pointer position gives: a
      dimension the direction names follows the pointer within its bounds,
      and the other keeps its start value. */
  function Resized(direction: string, start: ResizeStart, clientX: int, clientY: int): (s: Size)
    ensures Includes(direction, "right") || Includes(direction, "left")
            ==> MinWidth <= s.width <= MaxWidth
    ensures !Includes(direction, "right") && !Includes(direction, "left") ==> s.width == start.width
    ensures Includes(direction, "bottom") || Includes(direction, "top")
            ==> MinHeight <= s.height <= MaxHeight
    ensures !Includes(direction, "bottom") && !Includes(direction, "top") ==> s.height == start.height
    ensures Includes(direction, "right") && !Includes(direction, "left")
            ==> s.width == Clamp(MinWidth, MaxWidth, start.width + (clientX - start.x))
    ensures Includes(direction, "left")
            ==> s.width == Clamp(MinWidth, MaxWidth, start.width - (clientX - start.x))
    ensures Includes(direction, "bottom") && !Includes(direction, "top")
            ==> s.height == Clamp(MinHeight, MaxHeight, start.height + (clientY - start.y))
    ensures Includes(direction, "top")
            ==> s.height == Clamp(MinHeight, MaxHeight, start.height - (clientY - start.y))
  {
    var dx, dy := clientX - start.x, clientY - start.y;
    var width :=
      if Includes(direction, "left") then Clamp(MinWidth, MaxWidth, start.width - dx)
      else if Includes(direction, "right") then Clamp(MinWidth, MaxWidth, start.width + dx)
      else start.width;
    var height :=
      if Includes(direction, "top") then Clamp(MinHeight, MaxHeight, start.height - dy)
      else if Includes(direction, "bottom") then Clamp(MinHeight, MaxHeight, start.height + dy)
      else start.height;
    Size(width, height)
  }

  /** The panel's own state. */
  class ChatPanel {
    var inputValue: string
    var isLoading: bool
    var size: Size
    var isResizing: bool
    var resizeDirection: string
    var resizeStart: ResizeStart
    var isMaximized: bool

    /** The panel is always within its size bounds, and so is the size a
        drag in progress started from. */
    ghost predicate Valid()
      reads this
    {
      InBounds(size.width, size.height)
      && (isResizing ==> InBounds(resizeStart.width, resizeStart.height))
    }

    /** An empty input, 450 by 600, not resizing, not maximised. */
    constructor ()
      ensures Valid()
      ensures inputValue == "" && !isLoading && size == Size(450, 600)
      ensures !isResizing && resizeDirection == "" && !isMaximized
    {
      inputValue := "";
      isLoading := false;
      size := Size(450, 600);
      isResizing := false;
      resizeDirection := "";
      resizeStart := ResizeStart(0, 0, 0, 0);
      isMaximized := false;
    }

    /** `handleSuggestionClick`: the suggestion's text becomes the input. */
    method SuggestionClick(s: Suggestion)
      modifies this`inputValue
      ensures inputValue == s.text
    {
      inputValue := s.text;
    }

    /** The synchronous part of `handleSendMessage`.
        - A blank input or an unbound panel does nothing.
        - An input that matches no suggestion gets one bot reply and no
          request; the input stays.
        - Otherwise the trimmed input and a progress note are appended, the
          input is cleared, loading starts and the request is sent with
          `payload`; `pending` is what its settle step will need.
        Nothing here looks at `isLoading`: Enter sends even while a request
        is pending. */
    method SendMessage(store: SnippetStore) returns (pending: Option<Pending>, payload: Codes)
      requires Valid() && store.Valid()
      modifies this`inputValue, this`isLoading, store`snippetData
      ensures Valid() && store.Valid()
      ensures Trim(old(inputValue)) == "" || !Bound(store.currentSnippet) ==>
                pending.None? && store.snippetData == old(store.snippetData)
                && inputValue == old(inputValue) && isLoading == old(isLoading)
      ensures Trim(old(inputValue)) != "" && Bound(store.currentSnippet) ==>
                var id := store.currentSnippet.value;
                var info := old(store.snippetData[id]);
                (pending.Some? <==> MatchIntent(Trim(old(inputValue)), Some(info)).Some?)
                && (pending.None? ==>
                      inputValue == old(inputValue) && isLoading == old(isLoading)
                      && store.snippetData == old(store.snippetData)[id := info.(
                           chatMessages := Some(Messages(old(store.snippetData), id) + [Message(NotRecognizedText, Bot)]))])
                && (pending.Some? ==>
                      pending == Some(Pending(id, info.codes)) && payload == Payload(info.codes)
                      && inputValue == "" && isLoading
                      && store.snippetData == Sent(old(store.snippetData), id, Trim(old(inputValue))))
    {
      pending, payload := None, Codes("", "", "");
      var trimmed := Trim(inputValue);
      if trimmed == "" || !Bound(store.currentSnippet) {
        return;
      }
      var id := store.currentSnippet.value;
      var info := store.snippetData[id];
      var matched := MatchIntent(trimmed, Some(info));
      if matched.None? {
        store.AddChatMessage(id, Message(NotRecognizedText, Bot));
        return;
      }
      Send(store, id, trimmed);
      pending := Some(Pending(id, info.codes));
      payload := Payload(info.codes);
    }

    /** The send step after a match: the trimmed input is appended, the
        input cleared, loading started and the progress note appended. */
    method Send(store: SnippetStore, id: SnippetId, trimmed: string)
      requires Valid() && store.Valid()
      modifies this`inputValue, this`isLoading, store`snippetData
      ensures Valid() && store.Valid()
      ensures inputValue == "" && isLoading
      ensures store.snippetData == Sent(old(store.snippetData), id, trimmed)
    {
      store.AddChatMessage(id, Message(trimmed, User));
      inputValue := "";
      isLoading := true;
      store.AddChatMessage(id, Message(ProcessingText, Bot));
    }

    /** The asynchronous end of `handleSendMessage` for request `p`: a reply
        is merged over the code sent and announced, a failure only
        announced, under the id the request captured whether or not the
        panel is still bound to it; loading ends either way. */
    method Settle(store: SnippetStore, p: Pending, outcome: EnhanceOutcome)
      requires store.Valid()
      modifies this`isLoading, store`snippetData
      ensures store.Valid()
      ensures !isLoading
      ensures store.snippetData == Landed(old(store.snippetData), p, outcome)
    {
      match outcome {
        case Replied(reply) =>
          store.UpdateSnippetCode(p.id, Whole(MergeReply(reply, p.codes)));
          store.AddChatMessage(p.id, Message(UpdatedText, Bot));
        case NotOk =>
          store.AddChatMessage(p.id, Message(FailedText, Bot));
        case Thrown =>
          store.AddChatMessage(p.id, Message(FailedText, Bot));
      }
      isLoading := false;
    }

    /** `handleResizeStart`: outside the maximised state, a drag begins in
        `direction` from the pointer and the current size. */
    method StartResize(direction: string, clientX: int, clientY: int)
      requires Valid()
      modifies this`isResizing, this`resizeDirection, this`resizeStart
      ensures Valid()
      ensures isMaximized ==> isResizing == old(isResizing) && resizeDirection == old(resizeDirection)
                              && resizeStart == old(resizeStart)
      ensures !isMaximized ==> isResizing && resizeDirection == direction
                               && resizeStart == ResizeStart(clientX, clientY, size.width, size.height)
    {
      if isMaximized {
        return;
      }
      isResizing := true;
      resizeDirection := direction;
      resizeStart := ResizeStart(clientX, clientY, size.width, size.height);
    }

    /** `handleMouseMove`: while a drag in a named direction is under way
        and the panel is not maximised, the size follows the pointer within
        its bounds; otherwise nothing changes. */
    method MouseMove(clientX: int, clientY: int)
      requires Valid()
      modifies this`size
      ensures Valid()
      ensures isResizing && resizeDirection != "" && !isMaximized
              ==> size == Resized(resizeDirection, resizeStart, clientX, clientY)
      ensures !(isResizing && resizeDirection != "" && !isMaximized) ==> size == old(size)
    {
      if isResizing && resizeDirection != "" && !isMaximized {
        var deltaX := clientX - resizeStart.x;
        var deltaY := clientY - resizeStart.y;
        var newWidth := resizeStart.width;
        var newHeight := resizeStart.height;
        if Includes(resizeDirection, "right") {
          newWidth := Clamp(MinWidth, MaxWidth, resizeStart.width + deltaX);
        }
        if Includes(resizeDirection, "left") {
          newWidth := Clamp(MinWidth, MaxWidth, resizeStart.width - deltaX);
        }
        if Includes(resizeDirection, "bottom") {
          newHeight := Clamp(MinHeight, MaxHeight, resizeStart.height + deltaY);
        }
        if Includes(resizeDirection, "top") {
          newHeight := Clamp(MinHeight, MaxHeight, resizeStart.height - deltaY);
        }
        size := Size(newWidth, newHeight);
      }
    }

    /** `handleMouseUp`: the drag ends. */
    method MouseUp()
      requires Valid()
      modifies this`isResizing, this`resizeDirection
      ensures Valid()
      ensures !isResizing && resizeDirection == ""
    {
      isResizing := false;
      resizeDirection := "";
    }

    /** `toggleMaximize`. */
    method ToggleMaximize()
      requires Valid()
      modifies this`isMaximized
      ensures Valid()
      ensures isMaximized == !old(isMaximized)
    {
      isMaximized := !isMaximized;
    }
  }
}

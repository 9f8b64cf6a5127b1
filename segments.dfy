/** The conversation state of the live session screen (components/LiveSessionScreen.tsx)
    as values: segments of chat messages, the pending input transcript, the user responses
    awaiting review and the turn counter, with one function per event that changes them.
    The Session class of module LiveSessionScreen holds these as fields and its methods are
    proved to follow these functions. */
module Segments {
  import opened Wrappers
  import opened Types

  /** CONVERSATION_SEGMENT_LENGTH: turns (2 user + 2 coach) before feedback is requested. */
  const SegmentLength: nat := 4

  const FeedbackErrorMessage: string := "Sorry, I couldn't generate feedback right now."

  /** A ConversationSegment; an absent `isLoadingFeedback` is modelled as false. */
  datatype Segment = Segment(id: int, messages: seq<ChatMessage>, feedback: Option<string>, loading: bool)

  /** The outcome of the feedback generator call. */
  datatype FeedbackResult = Generated(text: string) | Failed

  /** The state the message handlers and the feedback request share: the segments, the
      input transcript ref, the responses awaiting review, the turn counter, and the id of
      the segment an in-flight feedback request will seal. */
  datatype Conversation = Conversation(
    segments: seq<Segment>,
    inputTranscript: string,
    responses: seq<string>,
    turnCounter: nat,
    pendingId: Option<int>)

  function EmptySegment(id: int): Segment {
    Segment(id, [], None, false)
  }

  function Last(segs: seq<Segment>): Segment
    requires |segs| > 0
  {
    segs[|segs| - 1]
  }

  /** Line 79: whether the last segment is waiting for feedback (false when there is none). */
  function IsLoadingFeedback(segs: seq<Segment>): bool {
    |segs| > 0 && Last(segs).loading
  }

  function Ids(segs: seq<Segment>): set<int> {
    set i | 0 <= i < |segs| :: segs[i].id
  }

  predicate UniqueIds(segs: seq<Segment>) {
    forall i, j :: 0 <= i < j < |segs| ==> segs[i].id != segs[j].id
  }

  /** The invariant every reachable state keeps: there is an open last segment without
      feedback, ids are distinct, only the last segment may be loading, and a feedback
      request is in flight exactly when it is, for that segment. */
  ghost predicate WellFormed(c: Conversation) {
    && |c.segments| > 0
    && UniqueIds(c.segments)
    && (forall i :: 0 <= i < |c.segments| - 1 ==> !c.segments[i].loading)
    && Last(c.segments).feedback == None
    && c.pendingId == (if Last(c.segments).loading then Some(Last(c.segments).id) else None)
  }

  // ---------------------------------------------------------------- JavaScript trim

  /** WhiteSpace and LineTerminator code points of ECMA-262 (sections 12.2 and 12.3),
      which String.prototype.trim removes. */
  predicate IsTrimmable(c: char) {
    var n := c as int;
    || n == 0x09 || n == 0x0A || n == 0x0B || n == 0x0C || n == 0x0D || n == 0x20
    || n == 0xA0 || n == 0x1680 || (0x2000 <= n <= 0x200A) || n == 0x2028 || n == 0x2029
    || n == 0x202F || n == 0x205F || n == 0x3000 || n == 0xFEFF
  }

  function TrimStart(s: string): (r: string)
    ensures |r| <= |s| && r == s[|s| - |r|..]
    ensures forall k :: 0 <= k < |s| - |r| ==> IsTrimmable(s[k])
    ensures r == [] || !IsTrimmable(r[0])
    decreases |s|
  {
    if s != [] && IsTrimmable(s[0]) then TrimStart(s[1..]) else s
  }

  function TrimEnd(s: string): (r: string)
    ensures |r| <= |s| && r == s[..|r|]
    ensures forall k :: |r| <= k < |s| ==> IsTrimmable(s[k])
    ensures r == [] || !IsTrimmable(r[|r| - 1])
    decreases |s|
  {
    if s != [] && IsTrimmable(s[|s| - 1]) then TrimEnd(s[..|s| - 1]) else s
  }

  /** String.prototype.trim. */
  function Trim(s: string): string {
    TrimEnd(TrimStart(s))
  }

  /** The trimmed text is empty exactly when every character is whitespace; otherwise it
      starts and ends with a non-whitespace character. */
  lemma TrimBlank(s: string)
    ensures Trim(s) == [] <==> forall k :: 0 <= k < |s| ==> IsTrimmable(s[k])
    ensures Trim(s) != [] ==> !IsTrimmable(Trim(s)[0]) && !IsTrimmable(Trim(s)[|Trim(s)| - 1])
  {
    var t := TrimStart(s);
    assert Trim(s) != [] ==> Trim(s)[0] == t[0];
  }

  // ---------------------------------------------------------------- inbound transcripts

  /** Lines 102 and 119: push a message onto the last segment's messages. */
  function PushMessage(segs: seq<Segment>, m: ChatMessage): seq<Segment>
    requires |segs| > 0
  {
    segs[..|segs| - 1] + [Last(segs).(messages := Last(segs).messages + [m])]
  }

  /** Whether output text extends the last message: it is a coach message and no feedback. */
  predicate ExtendsLastMessage(ms: seq<ChatMessage>) {
    |ms| > 0 && ms[|ms| - 1].speaker == Coach && !ms[|ms| - 1].isFeedback
  }

  /** Lines 94-105: output transcript text is appended to the last message of the last
      segment when that is a non-feedback coach message, and pushed as a new coach message
      otherwise; no other segment and no other part of the last segment changes. */
  function AppendCoachText(segs: seq<Segment>, text: string): (r: seq<Segment>)
    requires |segs| > 0
    ensures |r| == |segs| && r[..|r| - 1] == segs[..|segs| - 1]
    ensures Last(r).id == Last(segs).id && Last(r).feedback == Last(segs).feedback
    ensures Last(r).loading == Last(segs).loading
    ensures var ms := Last(segs).messages;
            && (ExtendsLastMessage(ms) ==>
                  Last(r).messages == ms[..|ms| - 1] + [ms[|ms| - 1].(text := ms[|ms| - 1].text + text)])
            && (!ExtendsLastMessage(ms) ==> Last(r).messages == ms + [ChatMessage(Coach, text, false)])
  {
    var last := Last(segs);
    var ms := last.messages;
    if ExtendsLastMessage(ms) then
      segs[..|segs| - 1] + [last.(messages := ms[..|ms| - 1] + [ms[|ms| - 1].(text := ms[|ms| - 1].text + text)])]
    else
      PushMessage(segs, ChatMessage(Coach, text, false))
  }

  function OnOutputTranscript(c: Conversation, text: string): Conversation
    requires |c.segments| > 0
  {
    c.(segments := AppendCoachText(c.segments, text))
  }

  /** Line 110: input text only grows the pending transcript. */
  function OnInputTranscript(c: Conversation, text: string): Conversation {
    c.(inputTranscript := c.inputTranscript + text)
  }

  /** Lines 114-125: commit the trimmed transcript as a user message and a response to
      review when it is not empty; clear the transcript; count the turn in any case. */
  function CommitTurn(c: Conversation): (r: Conversation)
    requires |c.segments| > 0
    ensures |r.segments| == |c.segments|
  {
    var userText := Trim(c.inputTranscript);
    if userText != "" then
      c.(segments := PushMessage(c.segments, ChatMessage(User, userText, false)),
         responses := c.responses + [userText],
         inputTranscript := "",
         turnCounter := c.turnCounter + 1)
    else
      c.(inputTranscript := "", turnCounter := c.turnCounter + 1)
  }

  // ---------------------------------------------------------------- feedback request

  /** Line 150: a feedback request goes ahead only with responses to review and no request
      already loading. */
  predicate FeedbackGuard(c: Conversation) {
    |c.responses| > 0 && !IsLoadingFeedback(c.segments)
  }

  /** Lines 155-157: the segment with the captured id is marked loading. */
  function MarkLoading(segs: seq<Segment>, id: int): seq<Segment> {
    seq(|segs|, i requires 0 <= i < |segs| => if segs[i].id == id then segs[i].(loading := true) else segs[i])
  }

  /** Lines 172-174 and 181-183: the segment with the captured id gets the feedback text
      and stops loading. */
  function SealSegment(segs: seq<Segment>, id: int, text: string): seq<Segment> {
    seq(|segs|, i requires 0 <= i < |segs| =>
      if segs[i].id == id then segs[i].(feedback := Some(text), loading := false) else segs[i])
  }

  /** Lines 153-161: mark the last segment as loading, snapshot-and-clear the responses and
      reset the turn counter. */
  function FeedbackBegun(c: Conversation): Conversation
    requires |c.segments| > 0
  {
    var id := Last(c.segments).id;
    c.(segments := MarkLoading(c.segments, id), responses := [], turnCounter := 0, pendingId := Some(id))
  }

  /** getFeedback up to the network call: a no-op when the guard fails. */
  function RequestFeedback(c: Conversation): Conversation
    requires |c.segments| > 0
  {
    if FeedbackGuard(c) then FeedbackBegun(c) else c
  }

  /** Lines 170 and 179: the generated text, or the fixed message when generation failed. */
  function FeedbackText(result: FeedbackResult): string {
    match result
    case Generated(text) => text
    case Failed => FeedbackErrorMessage
  }

  /** Lines 171-185: seal the requested segment with the generated or the fallback text,
      clear its loading flag and open a fresh segment. */
  function FeedbackSealed(c: Conversation, result: FeedbackResult, freshId: int): Conversation
    requires c.pendingId.Some?
  {
    c.(segments := SealSegment(c.segments, c.pendingId.value, FeedbackText(result)) + [EmptySegment(freshId)],
       pendingId := None)
  }

  /** Whether a turn completion starts a feedback request (lines 126-128 and 150). */
  predicate TurnStartsFeedback(c: Conversation)
    requires |c.segments| > 0
  {
    CommitTurn(c).turnCounter >= SegmentLength && FeedbackGuard(CommitTurn(c))
  }

  /** Lines 113-128: a turn completion, then a feedback request once the counter reaches
      the segment length. */
  function OnTurnComplete(c: Conversation): (r: Conversation)
    requires |c.segments| > 0
    ensures |r.segments| == |c.segments|
  {
    var committed := CommitTurn(c);
    if committed.turnCounter >= SegmentLength then RequestFeedback(committed) else committed
  }

  // ---------------------------------------------------------------- the lemmas of the lifecycle

  /** With distinct ids, marking the last segment's id changes the last segment only. */
  lemma MarkLoadingLast(segs: seq<Segment>)
    requires |segs| > 0 && UniqueIds(segs)
    ensures MarkLoading(segs, Last(segs).id) == segs[..|segs| - 1] + [Last(segs).(loading := true)]
  {
    var r := MarkLoading(segs, Last(segs).id);
    var e := segs[..|segs| - 1] + [Last(segs).(loading := true)];
    forall i | 0 <= i < |segs| ensures r[i] == e[i] {
      if i < |segs| - 1 {
        assert segs[i].id != segs[|segs| - 1].id;
      }
    }
  }

  /** With distinct ids, sealing the last segment's id changes the last segment only. */
  lemma SealSegmentLast(segs: seq<Segment>, text: string)
    requires |segs| > 0 && UniqueIds(segs)
    ensures SealSegment(segs, Last(segs).id, text)
         == segs[..|segs| - 1] + [Last(segs).(feedback := Some(text), loading := false)]
  {
    var r := SealSegment(segs, Last(segs).id, text);
    var e := segs[..|segs| - 1] + [Last(segs).(feedback := Some(text), loading := false)];
    forall i | 0 <= i < |segs| ensures r[i] == e[i] {
      if i < |segs| - 1 {
        assert segs[i].id != segs[|segs| - 1].id;
      }
    }
  }

  /** Beginning a request snapshots-and-clears the responses, resets the counter, marks the
      last segment loading and leaves every other segment as it was. */
  lemma FeedbackBegins(c: Conversation)
    requires WellFormed(c) && FeedbackGuard(c)
    ensures var r := FeedbackBegun(c);
            && r.segments == c.segments[..|c.segments| - 1] + [Last(c.segments).(loading := true)]
            && r.responses == [] && r.turnCounter == 0
            && r.inputTranscript == c.inputTranscript
            && r.pendingId == Some(Last(c.segments).id)
            && IsLoadingFeedback(r.segments)
            && WellFormed(r)
  {
    MarkLoadingLast(c.segments);
    var r := FeedbackBegun(c);
    var n := |c.segments|;
    assert r.segments[..n - 1] == c.segments[..n - 1];
    forall i, j | 0 <= i < j < n ensures r.segments[i].id != r.segments[j].id {
      assert r.segments[i].id == c.segments[i].id && r.segments[j].id == c.segments[j].id;
    }
  }

  /** Completing a request seals only the requested segment, with the generated text or the
      fixed fallback message, clears loading and appends one fresh empty segment. */
  lemma FeedbackCompletes(c: Conversation, result: FeedbackResult, freshId: int)
    requires WellFormed(c) && c.pendingId.Some? && freshId !in Ids(c.segments)
    ensures var r := FeedbackSealed(c, result, freshId);
            && r.segments == c.segments[..|c.segments| - 1]
                             + [Last(c.segments).(feedback := Some(FeedbackText(result)), loading := false),
                                EmptySegment(freshId)]
            && r.responses == c.responses && r.turnCounter == c.turnCounter
            && r.inputTranscript == c.inputTranscript
            && !IsLoadingFeedback(r.segments)
            && WellFormed(r)
  {
    var n := |c.segments|;
    SealSegmentLast(c.segments, FeedbackText(result));
    var r := FeedbackSealed(c, result, freshId);
    assert r.segments[..n] == SealSegment(c.segments, Last(c.segments).id, FeedbackText(result));
    forall i, j | 0 <= i < j < n + 1 ensures r.segments[i].id != r.segments[j].id {
      if j < n {
        assert r.segments[i].id == c.segments[i].id && r.segments[j].id == c.segments[j].id;
      } else {
        assert r.segments[i].id == c.segments[i].id;
        assert c.segments[i].id in Ids(c.segments);
      }
    }
  }

  /** The guard makes a second request right after a first one a no-op. */
  lemma RequestFeedbackIdempotent(c: Conversation)
    requires |c.segments| > 0
    ensures RequestFeedback(RequestFeedback(c)) == RequestFeedback(c)
  {
  }

  /** Committing a turn changes no id and no loading flag, so it keeps the invariant. */
  lemma CommitTurnKeepsWellFormed(c: Conversation)
    requires WellFormed(c)
    ensures WellFormed(CommitTurn(c)) && CommitTurn(c).pendingId == c.pendingId
    ensures IsLoadingFeedback(CommitTurn(c).segments) == IsLoadingFeedback(c.segments)
  {
    var committed := CommitTurn(c);
    var n := |c.segments|;
    if Trim(c.inputTranscript) != "" {
      var last := Last(c.segments);
      assert committed.segments == c.segments[..n - 1] + [last.(messages := last.messages + [ChatMessage(User, Trim(c.inputTranscript), false)])];
      forall i | 0 <= i < n ensures committed.segments[i].id == c.segments[i].id
        && committed.segments[i].loading == c.segments[i].loading
      {
        if i < n - 1 {
          assert committed.segments[i] == c.segments[i];
        }
      }
    }
  }

  /** A turn completion either starts a request, which resets the counter to 0, or only
      counts the turn, even when the guard refused a request at or above the threshold. */
  lemma TurnCompletion(c: Conversation)
    requires WellFormed(c)
    ensures var r := OnTurnComplete(c);
            && r.inputTranscript == ""
            && (TurnStartsFeedback(c) ==> r.turnCounter == 0 && r.responses == [] && IsLoadingFeedback(r.segments))
            && (!TurnStartsFeedback(c) ==> r == CommitTurn(c) && r.turnCounter == c.turnCounter + 1)
            && WellFormed(r)
  {
    var committed := CommitTurn(c);
    CommitTurnKeepsWellFormed(c);
    if TurnStartsFeedback(c) {
      FeedbackBegins(committed);
    }
  }

  /** A turn completion commits the trimmed transcript, when it is not empty, as a user
      message of the last segment and as a response to review. */
  lemma TurnCommitsUserText(c: Conversation)
    requires |c.segments| > 0
    ensures var userText := Trim(c.inputTranscript);
            var r := CommitTurn(c);
            && (userText != "" ==>
                  r.segments == c.segments[..|c.segments| - 1]
                     + [Last(c.segments).(messages := Last(c.segments).messages + [ChatMessage(User, userText, false)])]
                  && r.responses == c.responses + [userText])
            && (userText == "" ==> r.segments == c.segments && r.responses == c.responses)
            && r.turnCounter == c.turnCounter + 1 && r.inputTranscript == ""
  {
  }

  lemma OutputTranscriptKeepsWellFormed(c: Conversation, text: string)
    requires WellFormed(c)
    ensures WellFormed(OnOutputTranscript(c, text))
    ensures OnOutputTranscript(c, text).responses == c.responses
    ensures OnOutputTranscript(c, text).turnCounter == c.turnCounter
  {
    var r := OnOutputTranscript(c, text);
    var n := |c.segments|;
    forall i | 0 <= i < n ensures r.segments[i].id == c.segments[i].id && r.segments[i].loading == c.segments[i].loading {
      if i < n - 1 {
        assert r.segments[i] == r.segments[..n - 1][i];
      }
    }
  }

  /** One turn with non-blank input from a cleared transcript: below the threshold it is
      counted and leaves a response to review; at the threshold it starts a request exactly
      when none is loading. */
  lemma TurnWithInput(c: Conversation, t: string)
    requires WellFormed(c) && c.inputTranscript == "" && Trim(t) != ""
    ensures var c1 := OnInputTranscript(c, t);
            var r := OnTurnComplete(c1);
            && (TurnStartsFeedback(c1) <==> c.turnCounter + 1 >= SegmentLength && !IsLoadingFeedback(c.segments))
            && WellFormed(r) && r.inputTranscript == ""
            && (c.turnCounter + 1 < SegmentLength ==>
                  r.turnCounter == c.turnCounter + 1 && |r.responses| > 0
                  && IsLoadingFeedback(r.segments) == IsLoadingFeedback(c.segments))
            && (TurnStartsFeedback(c1) ==> r.turnCounter == 0 && IsLoadingFeedback(r.segments))
  {
    var c1 := OnInputTranscript(c, t);
    assert c1.inputTranscript == t;
    var committed := CommitTurn(c1);
    assert |committed.responses| > 0;
    assert Last(committed.segments).loading == Last(c.segments).loading;
    TurnCompletion(c1);
  }

  /** Four completed turns with non-blank input, from a cleared counter with nothing loading,
      start exactly one feedback request: on the fourth. */
  lemma FourTurnsRequestFeedbackOnce(c: Conversation, t1: string, t2: string, t3: string, t4: string)
    requires WellFormed(c) && c.turnCounter == 0 && !IsLoadingFeedback(c.segments) && c.inputTranscript == ""
    requires Trim(t1) != "" && Trim(t2) != "" && Trim(t3) != "" && Trim(t4) != ""
    ensures var c1 := OnInputTranscript(c, t1);
            var c2 := OnInputTranscript(OnTurnComplete(c1), t2);
            var c3 := OnInputTranscript(OnTurnComplete(c2), t3);
            var c4 := OnInputTranscript(OnTurnComplete(c3), t4);
            && !TurnStartsFeedback(c1) && !TurnStartsFeedback(c2) && !TurnStartsFeedback(c3)
            && TurnStartsFeedback(c4)
            && OnTurnComplete(c4).turnCounter == 0
            && IsLoadingFeedback(OnTurnComplete(c4).segments)
  {
    TurnWithInput(c, t1);
    var d1 := OnTurnComplete(OnInputTranscript(c, t1));
    TurnWithInput(d1, t2);
    var d2 := OnTurnComplete(OnInputTranscript(d1, t2));
    TurnWithInput(d2, t3);
    var d3 := OnTurnComplete(OnInputTranscript(d2, t3));
    TurnWithInput(d3, t4);
  }

  // ---------------------------------------------------------------- flatten (lines 267-273)

  function FeedbackEntry(s: Segment): seq<ChatMessage> {
    if s.feedback.Some? && s.feedback.value != "" then [ChatMessage(System, s.feedback.value, true)] else []
  }

  /** The reduce of lines 267-272: each segment's messages, then its feedback entry when the
      feedback is a non-empty string. */
  function Emitted(segs: seq<Segment>): seq<ChatMessage>
    decreases |segs|
  {
    if segs == [] then [] else Emitted(segs[..|segs| - 1]) + Last(segs).messages + FeedbackEntry(Last(segs))
  }

  /** The filter of line 273: the messages with a non-empty text, in order. */
  function NonEmptyTexts(ms: seq<ChatMessage>): seq<ChatMessage>
    decreases |ms|
  {
    if ms == [] then []
    else NonEmptyTexts(ms[..|ms| - 1]) + (if ms[|ms| - 1].text != "" then [ms[|ms| - 1]] else [])
  }

  /** The filter keeps no message with an empty text. */
  lemma {:induction false} NonEmptyTextsNonEmpty(ms: seq<ChatMessage>)
    ensures forall i :: 0 <= i < |NonEmptyTexts(ms)| ==> NonEmptyTexts(ms)[i].text != ""
    decreases |ms|
  {
    if ms != [] {
      NonEmptyTextsNonEmpty(ms[..|ms| - 1]);
    }
  }

  /** The filter keeps every message when no text is empty. */
  lemma {:induction false} NonEmptyTextsKeepsAll(ms: seq<ChatMessage>)
    requires forall i :: 0 <= i < |ms| ==> ms[i].text != ""
    ensures NonEmptyTexts(ms) == ms
    decreases |ms|
  {
    if ms != [] {
      NonEmptyTextsKeepsAll(ms[..|ms| - 1]);
      assert ms == ms[..|ms| - 1] + [ms[|ms| - 1]];
    }
  }

  /** The final history of a session; none of its messages has an empty text. */
  function Flatten(segs: seq<Segment>): (r: seq<ChatMessage>)
    ensures forall i :: 0 <= i < |r| ==> r[i].text != ""
  {
    NonEmptyTextsNonEmpty(Emitted(segs));
    NonEmptyTexts(Emitted(segs))
  }

  lemma {:induction false} EmittedAppend(a: seq<Segment>, b: seq<Segment>)
    ensures Emitted(a + b) == Emitted(a) + Emitted(b)
    decreases |b|
  {
    if b != [] {
      var b' := b[..|b| - 1];
      assert (a + b)[..|a + b| - 1] == a + b';
      assert Last(a + b) == Last(b);
      EmittedAppend(a, b');
      calc {
        Emitted(a + b);
        Emitted(a + b') + Last(b).messages + FeedbackEntry(Last(b));
        Emitted(a) + Emitted(b') + Last(b).messages + FeedbackEntry(Last(b));
        Emitted(a) + (Emitted(b') + Last(b).messages + FeedbackEntry(Last(b)));
        Emitted(a) + Emitted(b);
      }
    } else {
      assert a + b == a;
    }
  }

  lemma {:induction false} NonEmptyTextsAppend(a: seq<ChatMessage>, b: seq<ChatMessage>)
    ensures NonEmptyTexts(a + b) == NonEmptyTexts(a) + NonEmptyTexts(b)
    decreases |b|
  {
    if b != [] {
      var b' := b[..|b| - 1];
      var m := b[|b| - 1];
      var kept := if m.text != "" then [m] else [];
      assert (a + b)[..|a + b| - 1] == a + b';
      assert (a + b)[|a + b| - 1] == m;
      NonEmptyTextsAppend(a, b');
      calc {
        NonEmptyTexts(a + b);
        NonEmptyTexts(a + b') + kept;
        NonEmptyTexts(a) + NonEmptyTexts(b') + kept;
        NonEmptyTexts(a) + (NonEmptyTexts(b') + kept);
        NonEmptyTexts(a) + NonEmptyTexts(b);
      }
    } else {
      assert a + b == a;
    }
  }

  /** Giving the open segment a non-empty feedback text and opening an empty segment
      appends exactly that feedback entry to the flattened history. */
  lemma FlattenSealed(prefix: seq<Segment>, last: Segment, text: string, freshId: int)
    requires last.feedback == None && text != ""
    ensures Flatten(prefix + [last.(feedback := Some(text))] + [EmptySegment(freshId)])
         == Flatten(prefix + [last]) + [ChatMessage(System, text, true)]
  {
    var entry := ChatMessage(System, text, true);
    var sealedLast := last.(feedback := Some(text));
    var open := prefix + [last];
    var closed := prefix + [sealedLast];
    var next := closed + [EmptySegment(freshId)];
    assert open[..|open| - 1] == prefix && closed[..|closed| - 1] == prefix;
    assert next[..|next| - 1] == closed;
    var e := Emitted(open);
    assert e == Emitted(prefix) + last.messages;
    assert Emitted(closed) == e + [entry];
    assert Emitted(next) == e + [entry];
    NonEmptyTextsAppend(e, [entry]);
    NonEmptyTextsKeepsAll([entry]);
  }

  /** The end-of-session flush: requesting feedback and sealing the open segment with a
      non-empty text appends exactly one System feedback entry to the final history. */
  lemma FlushAppendsFeedback(c: Conversation, result: FeedbackResult, freshId: int)
    requires WellFormed(c) && FeedbackGuard(c)
    requires FeedbackText(result) != ""
    ensures var sealed := FeedbackSealed(FeedbackBegun(c), result, freshId);
            Flatten(sealed.segments) == Flatten(c.segments) + [ChatMessage(System, FeedbackText(result), true)]
  {
    var segs := c.segments;
    var n := |segs|;
    var prefix := segs[..n - 1];
    var last := Last(segs);
    var text := FeedbackText(result);
    MarkLoadingLast(segs);
    var marked := FeedbackBegun(c).segments;
    assert marked == prefix + [last.(loading := true)];
    assert UniqueIds(marked) by {
      forall i, j | 0 <= i < j < n ensures marked[i].id != marked[j].id {
        assert marked[i].id == segs[i].id && marked[j].id == segs[j].id;
      }
    }
    SealSegmentLast(marked, text);
    assert marked[..n - 1] == prefix;
    assert Last(marked).(feedback := Some(text), loading := false) == last.(feedback := Some(text));
    assert segs == prefix + [last];
    assert FeedbackSealed(FeedbackBegun(c), result, freshId).segments
        == prefix + [last.(feedback := Some(text))] + [EmptySegment(freshId)];
    FlattenSealed(prefix, last, text, freshId);
  }

  // ---------------------------------------------------------------- rebuild (lines 37-61)

  /** Where the rebuild loop stands: the segments closed so far and the open one. */
  datatype RebuildState = RebuildState(closed: seq<Segment>, current: Segment)

  /** The loop of lines 42-53 after the messages of `h`: a feedback message sets the open
      segment's feedback and closes it, opening a segment whose id is the next index; any
      other message is appended to the open segment. */
  function RebuildPrefix(h: seq<ChatMessage>): RebuildState
    decreases |h|
  {
    if h == [] then RebuildState([], Segment(0, [], None, false))
    else
      var st := RebuildPrefix(h[..|h| - 1]);
      var msg := h[|h| - 1];
      if msg.isFeedback then
        RebuildState(st.closed + [st.current.(feedback := Some(msg.text))], Segment(|h|, [], None, false))
      else
        st.(current := st.current.(messages := st.current.messages + [msg]))
  }

  /** The segments the screen starts from: one empty segment for an empty history, otherwise
      the closed segments, the open one when it has messages, and a fresh empty segment. */
  function Rebuilt(history: seq<ChatMessage>, freshId: int): seq<Segment> {
    if history == [] then [EmptySegment(freshId)]
    else
      var st := RebuildPrefix(history);
      st.closed + (if |st.current.messages| > 0 then [st.current] else []) + [EmptySegment(freshId)]
  }

  /** The state initialiser of lines 37-61, a loop over the stored history. */
  method RebuildSegments(history: seq<ChatMessage>, freshId: int) returns (segments: seq<Segment>)
    ensures segments == Rebuilt(history, freshId)
  {
    if |history| == 0 {
      return [EmptySegment(freshId)];
    }
    var closed: seq<Segment> := [];
    var currentSegment := Segment(0, [], None, false);
    for index := 0 to |history|
      invariant RebuildState(closed, currentSegment) == RebuildPrefix(history[..index])
    {
      assert history[..index + 1][..index] == history[..index];
      var msg := history[index];
      if msg.isFeedback {
        currentSegment := currentSegment.(feedback := Some(msg.text));
        closed := closed + [currentSegment];
        currentSegment := Segment(index + 1, [], None, false);
      } else {
        currentSegment := currentSegment.(messages := currentSegment.messages + [msg]);
      }
    }
    assert history[..|history|] == history;
    if |currentSegment.messages| > 0 {
      closed := closed + [currentSegment];
    }
    segments := closed + [EmptySegment(freshId)];
  }

  /** The ids the rebuild loop hands out increase, stay within the history's indices, and
      nothing it builds is loading; the open segment has no feedback. */
  lemma {:induction false} RebuildPrefixShape(h: seq<ChatMessage>)
    ensures var st := RebuildPrefix(h);
            && (forall i, j :: 0 <= i < j < |st.closed| ==> st.closed[i].id < st.closed[j].id)
            && (forall i :: 0 <= i < |st.closed| ==> st.closed[i].id < st.current.id && !st.closed[i].loading)
            && 0 <= st.current.id <= |h|
            && !st.current.loading && st.current.feedback == None
    decreases |h|
  {
    if h != [] {
      RebuildPrefixShape(h[..|h| - 1]);
    }
  }

  /** A rebuilt screen ends in one empty open segment (the only segment for an empty
      history) and is a well-formed state for fresh ids beyond the history's indices. */
  lemma RebuiltWellFormed(history: seq<ChatMessage>, freshId: int)
    requires freshId > |history|
    ensures var segs := Rebuilt(history, freshId);
            && Last(segs) == EmptySegment(freshId)
            && (history == [] ==> segs == [EmptySegment(freshId)])
            && WellFormed(Conversation(segs, "", [], 0, None))
  {
    if history != [] {
      RebuildPrefixShape(history);
      var st := RebuildPrefix(history);
      var segs := Rebuilt(history, freshId);
      var open := if |st.current.messages| > 0 then [st.current] else [];
      var body := st.closed + open;
      assert segs == body + [EmptySegment(freshId)];
      assert forall i :: 0 <= i < |body| ==> body[i].id <= st.current.id && !body[i].loading;
      forall i, j | 0 <= i < j < |segs| ensures segs[i].id != segs[j].id {
        if j < |st.closed| {
          assert segs[i].id < segs[j].id;
        } else if j < |body| {
          assert segs[i].id < st.current.id;
        } else {
          assert segs[i].id <= st.current.id <= |history|;
        }
      }
    }
  }

  /** A message of a stored history: non-empty text, and feedback entries in the shape the
      flatten writes them. */
  predicate IsStoredMessage(m: ChatMessage) {
    m.text != "" && (m.isFeedback ==> m.speaker == System)
  }

  lemma {:induction false} RebuildPrefixEmits(h: seq<ChatMessage>)
    requires forall i :: 0 <= i < |h| ==> IsStoredMessage(h[i])
    ensures Emitted(RebuildPrefix(h).closed) + RebuildPrefix(h).current.messages == h
    ensures RebuildPrefix(h).current.feedback == None
    decreases |h|
  {
    if h != [] {
      var h' := h[..|h| - 1];
      RebuildPrefixEmits(h');
      var st := RebuildPrefix(h');
      var msg := h[|h| - 1];
      assert h == h' + [msg];
      if msg.isFeedback {
        var sealed := st.current.(feedback := Some(msg.text));
        var closed := st.closed + [sealed];
        assert closed[..|closed| - 1] == st.closed;
        assert FeedbackEntry(sealed) == [msg];
        assert Emitted(closed) == Emitted(st.closed) + st.current.messages + [msg];
      } else {
        assert Emitted(st.closed) + (st.current.messages + [msg]) == h' + [msg];
      }
    }
  }

  /** Flattening the segments rebuilt from a stored history gives that history back. */
  lemma FlattenRebuilt(history: seq<ChatMessage>, freshId: int)
    requires forall i :: 0 <= i < |history| ==> IsStoredMessage(history[i])
    ensures Flatten(Rebuilt(history, freshId)) == history
  {
    EmittedRebuilt(history, freshId);
    NonEmptyTextsKeepsAll(history);
  }

  lemma EmittedRebuilt(history: seq<ChatMessage>, freshId: int)
    requires forall i :: 0 <= i < |history| ==> IsStoredMessage(history[i])
    ensures Emitted(Rebuilt(history, freshId)) == history
  {
    if history != [] {
      RebuildPrefixEmits(history);
      var st := RebuildPrefix(history);
      var open := if |st.current.messages| > 0 then [st.current] else [];
      EmittedAppend(st.closed + open, [EmptySegment(freshId)]);
      EmittedAppend(st.closed, open);
      assert Emitted([EmptySegment(freshId)]) == [];
      assert FeedbackEntry(st.current) == [];
      if open != [] {
        assert Emitted(open) == Emitted([]) + st.current.messages + FeedbackEntry(st.current);
      } else {
        assert st.current.messages == [];
      }
      assert Emitted(st.closed + open) == history;
    } else {
      assert Emitted([EmptySegment(freshId)]) == Emitted([]) + [] + [];
    }
  }
}

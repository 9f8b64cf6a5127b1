/** The live session screen (components/LiveSessionScreen.tsx) as one object: the
    conversation segments and the refs the message handlers update, the session flags,
    and the playback clock. Each handler is one method whose new state is the matching
    function of module Segments applied to the old state. */
module LiveSessionScreen {
  import opened Wrappers
  import opened Types
  import opened AudioUtils
  import opened Segments
  import opened Playback

  /** The parts of a LiveServerMessage the screen reads: the two transcriptions, the
      turn-complete flag and the inline audio data of the first part. */
  datatype ServerMessage = ServerMessage(
    outputTranscription: Option<string>,
    inputTranscription: Option<string>,
    turnComplete: bool,
    audio: Option<string>)

  /** What handleMessage does to the conversation: output text, then input text, then the
      turn completion, in that order. */
  function MessageStep(c: Conversation, msg: ServerMessage): Conversation
    requires |c.segments| > 0
  {
    var afterOutput := if msg.outputTranscription.Some? then OnOutputTranscript(c, msg.outputTranscription.value) else c;
    var afterInput := if msg.inputTranscription.Some? then OnInputTranscript(afterOutput, msg.inputTranscription.value) else afterOutput;
    if msg.turnComplete then OnTurnComplete(afterInput) else afterInput
  }

  /** A message keeps the conversation well formed; without a turn completion it neither
      counts a turn, nor touches the responses to review, nor starts or ends a request. */
  lemma MessageStepKeepsWellFormed(c: Conversation, msg: ServerMessage)
    requires WellFormed(c)
    ensures var r := MessageStep(c, msg);
            && WellFormed(r)
            && (!msg.turnComplete ==>
                  r.turnCounter == c.turnCounter && r.responses == c.responses
                  && r.pendingId == c.pendingId
                  && IsLoadingFeedback(r.segments) == IsLoadingFeedback(c.segments))
  {
    var afterOutput := if msg.outputTranscription.Some? then OnOutputTranscript(c, msg.outputTranscription.value) else c;
    if msg.outputTranscription.Some? {
      OutputTranscriptKeepsWellFormed(c, msg.outputTranscription.value);
    }
    var afterInput := if msg.inputTranscription.Some? then OnInputTranscript(afterOutput, msg.inputTranscription.value) else afterOutput;
    assert WellFormed(afterInput);
    if msg.turnComplete {
      TurnCompletion(afterInput);
    }
  }

  /** stopSession's flush (lines 254-256): with final feedback asked for and responses to
      review, one feedback request runs to completion unless one is already loading. */
  function Flushed(c: Conversation, shouldGetFinalFeedback: bool, outcome: FeedbackResult, freshId: int): Conversation
    requires |c.segments| > 0
  {
    if shouldGetFinalFeedback && |c.responses| > 0 && FeedbackGuard(c) then
      FeedbackSealed(FeedbackBegun(c), outcome, freshId)
    else c
  }

  /** Ending a session with unreviewed responses and nothing loading produces a final
      history that is the history before, followed by exactly one feedback entry. */
  lemma EndSessionFlush(c: Conversation, outcome: FeedbackResult, freshId: int)
    requires WellFormed(c) && |c.responses| > 0 && !IsLoadingFeedback(c.segments)
    requires freshId !in Ids(c.segments) && FeedbackText(outcome) != ""
    ensures Flatten(Flushed(c, true, outcome, freshId).segments)
         == Flatten(c.segments) + [ChatMessage(System, FeedbackText(outcome), true)]
    ensures Flushed(c, true, outcome, freshId).responses == []
  {
    FlushAppendsFeedback(c, outcome, freshId);
  }

  class Session {
    var segments: seq<Segment>
    /** currentInputTranscriptionRef */
    var inputTranscript: string
    /** userSegmentResponses */
    var responses: seq<string>
    var turnCounter: nat
    /** The segment id an in-flight feedback request captured (segmentIdToUpdate). */
    var pendingId: Option<int>
    /** isLoadingFeedbackRef, read by the capture gate and the feedback guard. */
    var loadingFeedback: bool
    /** isSessionActive */
    var active: bool
    /** isPaused */
    var paused: bool
    /** Whether sessionRef holds a live session. */
    var connected: bool
    const playback: PlaybackClock

    function State(): Conversation
      reads this
    {
      Conversation(segments, inputTranscript, responses, turnCounter, pendingId)
    }

    ghost predicate Valid()
      reads this, playback
    {
      && WellFormed(State())
      && loadingFeedback == IsLoadingFeedback(segments)
      && playback.Valid()
    }

    /** Lines 37-61 and the initial refs: segments rebuilt from the stored history, nothing
        pending, idle. `freshId` stands for the Date.now() id of the trailing segment. */
    constructor (history: seq<ChatMessage>, freshId: int)
      requires freshId > |history|
      ensures State() == Conversation(Rebuilt(history, freshId), "", [], 0, None)
      ensures !active && !paused && !connected && !loadingFeedback
      ensures fresh(playback) && !playback.hasContext && playback.nextStartTime == 0.0
      ensures playback.sources == {} && playback.lastSpoken == None
      ensures Valid()
    {
      var rebuilt := RebuildSegments(history, freshId);
      RebuiltWellFormed(history, freshId);
      segments := rebuilt;
      inputTranscript := "";
      responses := [];
      turnCounter := 0;
      pendingId := None;
      loadingFeedback := false;
      active := false;
      paused := false;
      connected := false;
      playback := new PlaybackClock();
    }

    /** Lines 92-106: output transcript text coalesces into the last coach message. */
    method OnOutputTranscript(text: string)
      requires Valid()
      modifies this
      ensures Valid()
      ensures State() == Segments.OnOutputTranscript(old(State()), text)
      ensures loadingFeedback == old(loadingFeedback)
      ensures active == old(active) && paused == old(paused) && connected == old(connected)
    {
      OutputTranscriptKeepsWellFormed(State(), text);
      var lastSegment := segments[|segments| - 1];
      var ms := lastSegment.messages;
      if |ms| > 0 && ms[|ms| - 1].speaker == Coach && !ms[|ms| - 1].isFeedback {
        var lastMessage := ms[|ms| - 1];
        ms := ms[..|ms| - 1] + [lastMessage.(text := lastMessage.text + text)];
      } else {
        ms := ms + [ChatMessage(Coach, text, false)];
      }
      segments := segments[..|segments| - 1] + [lastSegment.(messages := ms)];
    }

    /** Line 110. */
    method OnInputTranscript(text: string)
      requires Valid()
      modifies this
      ensures Valid()
      ensures State() == Segments.OnInputTranscript(old(State()), text)
      ensures loadingFeedback == old(loadingFeedback)
      ensures active == old(active) && paused == old(paused) && connected == old(connected)
    {
      inputTranscript := inputTranscript + text;
    }

    /** getFeedback up to the network call (lines 150-161); reports whether the guard let
        the request through and returns the copy of the responses the request reviews
        (responsesToReview, line 159), which the prompt of line 163 is built from. */
    method BeginFeedback() returns (began: bool, reviewed: seq<string>)
      requires Valid()
      modifies this
      ensures Valid()
      ensures began == FeedbackGuard(old(State()))
      ensures began ==> reviewed == old(responses) && |reviewed| > 0
      ensures !began ==> reviewed == []
      ensures State() == RequestFeedback(old(State()))
      ensures active == old(active) && paused == old(paused) && connected == old(connected)
    {
      if |responses| == 0 || loadingFeedback {
        return false, [];
      }
      FeedbackBegins(State());
      var segmentIdToUpdate := segments[|segments| - 1].id;
      segments := MarkLoading(segments, segmentIdToUpdate);
      loadingFeedback := true;
      pendingId := Some(segmentIdToUpdate);
      var responsesToReview := responses;
      responses := [];
      turnCounter := 0;
      began, reviewed := true, responsesToReview;
    }

    /** getFeedback after the network call (lines 170-185): seal the captured segment with
        the generated text or the fallback message and open a segment with a fresh id. */
    method CompleteFeedback(result: FeedbackResult, freshId: int)
      requires Valid() && pendingId.Some? && freshId !in Ids(segments)
      modifies this
      ensures Valid()
      ensures State() == FeedbackSealed(old(State()), result, freshId)
      ensures !loadingFeedback
      ensures active == old(active) && paused == old(paused) && connected == old(connected)
    {
      FeedbackCompletes(State(), result, freshId);
      var feedbackText := FeedbackText(result);
      segments := SealSegment(segments, pendingId.value, feedbackText) + [EmptySegment(freshId)];
      loadingFeedback := false;
      pendingId := None;
    }

    /** Lines 114-125: commit the trimmed transcript and count the turn. */
    method CommitTurn()
      requires Valid()
      modifies this
      ensures Valid()
      ensures State() == Segments.CommitTurn(old(State()))
      ensures active == old(active) && paused == old(paused) && connected == old(connected)
    {
      ghost var before := State();
      ghost var after := Segments.CommitTurn(before);
      CommitTurnKeepsWellFormed(before);
      var userText := Trim(inputTranscript);
      if userText != "" {
        segments := PushMessage(segments, ChatMessage(User, userText, false));
        responses := responses + [userText];
      }
      inputTranscript := "";
      turnCounter := turnCounter + 1;
      assert State() == after;
      assert loadingFeedback == IsLoadingFeedback(after.segments);
    }

    /** Lines 113-128: commit the turn, then request feedback at the threshold. */
    method HandleTurnComplete()
      requires Valid()
      modifies this
      ensures Valid()
      ensures State() == OnTurnComplete(old(State()))
      ensures active == old(active) && paused == old(paused) && connected == old(connected)
    {
      CommitTurn();
      if turnCounter >= SegmentLength {
        var _, _ := BeginFeedback();
      }
    }

    /** The transcript and turn events of a message (lines 92-129), in order. */
    method HandleEvents(msg: ServerMessage)
      requires Valid()
      modifies this
      ensures Valid()
      ensures State() == MessageStep(old(State()), msg)
      ensures active == old(active) && paused == old(paused) && connected == old(connected)
    {
      ghost var c0 := State();
      if msg.outputTranscription.Some? {
        OnOutputTranscript(msg.outputTranscription.value);
      }
      ghost var c1 := State();
      assert c1 == if msg.outputTranscription.Some? then Segments.OnOutputTranscript(c0, msg.outputTranscription.value) else c0;
      if msg.inputTranscription.Some? {
        OnInputTranscript(msg.inputTranscription.value);
      }
      ghost var c2 := State();
      assert c2 == if msg.inputTranscription.Some? then Segments.OnInputTranscript(c1, msg.inputTranscription.value) else c1;
      if msg.turnComplete {
        HandleTurnComplete();
      }
    }

    /** handleMessage (lines 91-146): the transcript and turn events, then the inline audio
        chunk, which the playback clock schedules at `currentTime` or later. */
    method HandleMessage(msg: ServerMessage, currentTime: real) returns (scheduled: Option<SourceNode>)
      requires Valid()
      modifies this, playback
      ensures Valid()
      ensures State() == MessageStep(old(State()), msg)
      ensures active == old(active) && paused == old(paused) && connected == old(connected)
      ensures msg.audio.None? ==>
                scheduled == None && playback.nextStartTime == old(playback.nextStartTime)
                && playback.sources == old(playback.sources) && playback.lastSpoken == old(playback.lastSpoken)
      ensures playback.hasContext == old(playback.hasContext)
      ensures msg.audio.Some? && (msg.audio.value == "" || !old(playback.hasContext)) ==>
                scheduled == None && playback.nextStartTime == old(playback.nextStartTime)
                && playback.sources == old(playback.sources) && playback.lastSpoken == old(playback.lastSpoken)
      ensures msg.audio.Some? && msg.audio.value != "" && old(playback.hasContext) ==>
                var start := StartTime(old(playback.nextStartTime), currentTime);
                match ChunkBuffer(msg.audio.value)
                case Err(_) =>
                  scheduled == None && playback.nextStartTime == start
                  && playback.sources == old(playback.sources) && playback.lastSpoken == old(playback.lastSpoken)
                case Ok(buffer) =>
                  && scheduled.Some? && fresh(scheduled.value)
                  && scheduled.value.buffer == buffer && scheduled.value.startAt == start
                  && playback.nextStartTime == start + Duration(buffer)
                  && playback.sources == old(playback.sources) + {scheduled.value}
                  && playback.lastSpoken == Some(buffer)
      ensures playback.nextStartTime >= old(playback.nextStartTime)
      ensures scheduled.Some? ==>
                && scheduled.value.startAt >= currentTime && scheduled.value.startAt >= old(playback.nextStartTime)
                && playback.sources == old(playback.sources) + {scheduled.value}
    {
      HandleEvents(msg);
      scheduled := None;
      if msg.audio.Some? {
        scheduled := playback.HandleAudio(msg.audio.value, currentTime);
      }
    }

    /** The audio-process callback (lines 207-214): a captured frame is dropped while paused
        or while feedback is loading, and is otherwise encoded for sending. */
    method CaptureFrame(samples: array<real>) returns (blob: Option<Blob>)
      requires Valid()
      ensures blob.None? <==> paused || IsLoadingFeedback(segments)
      ensures blob.Some? ==> blob.value == BlobOf(samples[..]) && blob.value.mimeType == PcmMimeType
    {
      if paused || loadingFeedback {
        return None;
      }
      var pcmBlob := CreateBlob(samples);
      blob := Some(pcmBlob);
    }

    /** Lines 277-282: flip pause, only while the session is active. */
    method TogglePause()
      modifies this
      ensures paused == (if old(active) then !old(paused) else old(paused))
      ensures State() == old(State()) && loadingFeedback == old(loadingFeedback)
      ensures active == old(active) && connected == old(connected)
    {
      if !active {
        return;
      }
      paused := !paused;
    }

    /** startSession up to connecting (lines 191-201): nothing happens while active or when
        the microphone is refused; otherwise the output context is opened. */
    method StartSession(microphoneGranted: bool)
      requires Valid()
      modifies playback
      ensures Valid()
      ensures old(active) || !microphoneGranted ==>
                playback.hasContext == old(playback.hasContext)
      ensures !old(active) && microphoneGranted ==> playback.hasContext
      ensures playback.nextStartTime == old(playback.nextStartTime) && playback.sources == old(playback.sources)
      ensures playback.lastSpoken == old(playback.lastSpoken)
    {
      if active || !microphoneGranted {
        return;
      }
      playback.OpenContext();
    }

    /** onopen (line 218): the session is active. */
    method OnOpen()
      modifies this
      ensures active
      ensures State() == old(State()) && loadingFeedback == old(loadingFeedback)
      ensures paused == old(paused) && connected == old(connected)
    {
      active := true;
    }

    /** Lines 245-246: the connect promise resolved to a session. */
    method OnConnected()
      modifies this
      ensures connected
      ensures State() == old(State()) && loadingFeedback == old(loadingFeedback)
      ensures active == old(active) && paused == old(paused)
    {
      connected := true;
    }

    /** onclose (lines 227-235): the session is inactive; pause and the session ref stay. */
    method OnClose()
      modifies this
      ensures !active
      ensures State() == old(State()) && loadingFeedback == old(loadingFeedback)
      ensures paused == old(paused) && connected == old(connected)
    {
      active := false;
    }

    /** stopSession (lines 253-263): with final feedback asked for and responses to review,
        run one feedback request to completion with the given outcome; then drop the
        session ref and leave the screen inactive and unpaused. */
    method StopSession(shouldGetFinalFeedback: bool, outcome: FeedbackResult, freshId: int)
      requires Valid()
      requires shouldGetFinalFeedback ==> freshId !in Ids(segments)
      modifies this
      ensures Valid()
      ensures State() == Flushed(old(State()), shouldGetFinalFeedback, outcome, freshId)
      ensures !active && !paused && !connected
    {
      if shouldGetFinalFeedback && |responses| > 0 {
        var began, _ := BeginFeedback();
        if began {
          CompleteFeedback(outcome, freshId);
        }
      }
      connected := false;
      active := false;
      paused := false;
    }

    /** onerror (lines 222-226): stop without final feedback. */
    method OnTransportError()
      requires Valid()
      modifies this
      ensures Valid()
      ensures State() == old(State())
      ensures !active && !paused && !connected
    {
      StopSession(false, Failed, 0);
    }

    /** handleEndSessionClick (lines 265-275): stop with final feedback, then hand the
        flattened segments to the session-end callback. */
    method EndSession(outcome: FeedbackResult, freshId: int) returns (finalHistory: seq<ChatMessage>)
      requires Valid() && freshId !in Ids(segments)
      modifies this
      ensures Valid()
      ensures State() == Flushed(old(State()), true, outcome, freshId)
      ensures finalHistory == Flatten(State().segments)
      ensures !active && !paused && !connected
    {
      StopSession(true, outcome, freshId);
      finalHistory := Flatten(segments);
    }
  }
}

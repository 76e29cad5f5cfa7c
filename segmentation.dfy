/** One iteration of the speech-to-text consumer loop
    (`SpeechConverter.processAudioStream` in voicekeyboard/stt.py) together
    with the lazy model loading it relies on. The voice-activity detector,
    the transcription engine and the success of loading the models are
    parameters; a detector or transcriber result of `None` stands for the
    call raising. */
module Segmentation {

  import opened Options
  import opened RingBuffers

  /** A voiced span as the detector reports it (`{"start": s, "end": e}`). */
  datatype Span = Span(start: int, end: int)

  /** What one loop iteration ended with. `TimedOut`: the queue wait raised
      `Empty`; `BelowWindow`: fewer samples than the analysis window;
      `Failed`: an exception after the window check was caught; `Processed`:
      the batch was handled and the buffer cleared. */
  datatype StepOutcome = TimedOut | BelowWindow | Failed | Processed

  /** Calls into the collaborators, recorded in a ghost trace. */
  datatype Call<T> = LoadModels | Detect(audio: seq<T>) | Transcribe(audio: seq<T>)

  /** One bound of a Python slice: a negative bound counts from the end,
      then the bound is clamped into `[0, n]`. */
  function SliceBound(i: int, n: nat): (b: nat)
    ensures b <= n
    ensures 0 <= i <= n ==> b == i
    ensures i < 0 && -i <= n ==> b == n + i
    ensures i < 0 && -i > n ==> b == 0
    ensures i > n ==> b == n
  {
    if i < 0 then (if i + n < 0 then 0 else i + n) else if i > n then n else i
  }

  /** `s[start:end]` with Python's semantics: bounds are normalised and
      clamped, and a start at or past the end gives an empty slice. */
  function PySlice<T>(s: seq<T>, start: int, end: int): (r: seq<T>)
    ensures |r| <= |s|
    ensures |r| == if SliceBound(start, |s|) < SliceBound(end, |s|)
                   then SliceBound(end, |s|) - SliceBound(start, |s|) else 0
    ensures forall i :: 0 <= i < |r| ==> r[i] == s[SliceBound(start, |s|) + i]
    ensures 0 <= start <= end <= |s| ==> r == s[start..end]
    ensures 0 <= end <= start ==> r == []
  {
    var lo := SliceBound(start, |s|);
    var hi := SliceBound(end, |s|);
    if lo >= hi then [] else s[lo..hi]
  }

  /** The samples handed to the transcriber for one span. */
  function SpanAudio<T>(audio: seq<T>, span: Span): seq<T>
  {
    PySlice(audio, span.start, span.end)
  }

  /** `" ".join(parts)`: the first part, then a space before each later
      part, so at least one character per gap between parts. */
  function JoinWithSpaces(parts: seq<string>): (r: string)
    ensures parts == [] ==> r == ""
    ensures parts != [] ==> |parts[0]| <= |r| && r[..|parts[0]|] == parts[0]
    ensures |parts| >= 2 ==> |parts[0]| < |r| && r[|parts[0]|] == ' '
    ensures |r| >= |parts| - 1
  {
    if parts == [] then ""
    else if |parts| == 1 then parts[0]
    else parts[0] + " " + JoinWithSpaces(parts[1..])
  }

  /** `s.split(" ")`: the pieces between single spaces; never empty. */
  function SplitOnSpace(s: string): (r: seq<string>)
    ensures |r| >= 1
  {
    if s == [] then [""]
    else if s[0] == ' ' then [""] + SplitOnSpace(s[1..])
    else
      var rest := SplitOnSpace(s[1..]);
      [[s[0]] + rest[0]] + rest[1..]
  }

  lemma {:induction false} SplitWordPrefix(w: string, t: string)
    requires forall i :: 0 <= i < |w| ==> w[i] != ' '
    ensures SplitOnSpace(w + t) == [w + SplitOnSpace(t)[0]] + SplitOnSpace(t)[1..]
  {
    if w != [] {
      assert (w + t)[0] == w[0] && (w + t)[1..] == w[1..] + t;
      SplitWordPrefix(w[1..], t);
      assert [w[0]] + (w[1..] + SplitOnSpace(t)[0]) == w + SplitOnSpace(t)[0];
    } else {
      assert w + t == t;
      assert w + SplitOnSpace(t)[0] == SplitOnSpace(t)[0];
      assert [SplitOnSpace(t)[0]] + SplitOnSpace(t)[1..] == SplitOnSpace(t);
    }
  }

  /** Joining segment texts that contain no space and splitting the result
      on spaces gives the segment texts back: the join loses nothing. */
  lemma {:induction false} JoinSplitRoundTrip(parts: seq<string>)
    requires parts != []
    requires forall p, i :: p in parts && 0 <= i < |p| ==> p[i] != ' '
    ensures SplitOnSpace(JoinWithSpaces(parts)) == parts
  {
    if |parts| == 1 {
      SplitWordPrefix(parts[0], "");
      assert parts[0] + "" == parts[0];
    } else {
      var tail := JoinWithSpaces(parts[1..]);
      JoinSplitRoundTrip(parts[1..]);
      assert parts[0] + " " + tail == parts[0] + (" " + tail);
      SplitWordPrefix(parts[0], " " + tail);
      assert (" " + tail)[0] == ' ' && (" " + tail)[1..] == tail;
      assert SplitOnSpace(" " + tail) == [""] + parts[1..];
      assert parts[0] + "" == parts[0];
      assert [parts[0]] + parts[1..] == parts;
    }
  }

  /** The texts that are logged for typing: the non-empty ones, in order. */
  function NonEmptyTexts(texts: seq<string>): (r: seq<string>)
    ensures |r| <= |texts|
    ensures forall t :: t in r ==> t in texts && t != ""
    ensures forall t :: t in texts && t != "" ==> t in r
  {
    if texts == [] then []
    else (if texts[0] != "" then [texts[0]] else []) + NonEmptyTexts(texts[1..])
  }

  /** How many spans reached the transcriber: the successful ones plus the
      one that raised, if any. */
  function Attempted(texts: seq<string>, failed: bool): nat
  {
    |texts| + if failed then 1 else 0
  }

  /** The transcriber calls for the given spans, one per span, in order. */
  ghost function TranscribeCalls<T>(audio: seq<T>, spans: seq<Span>): (r: seq<Call<T>>)
  {
    seq(|spans|, i requires 0 <= i < |spans| => Transcribe(SpanAudio(audio, spans[i])))
  }

  /** Extending the spans by one adds that span's transcription call. */
  lemma TranscribeCallsSnoc<T>(audio: seq<T>, spans: seq<Span>, i: nat)
    requires i < |spans|
    ensures TranscribeCalls(audio, spans[..i + 1]) ==
            TranscribeCalls(audio, spans[..i]) + [Transcribe(SpanAudio(audio, spans[i]))]
  {
    assert spans[..i + 1] == spans[..i] + [spans[i]];
  }

  /** The first `|texts|` spans were transcribed without raising, and
      `texts[i]` is the space-joined transcription of span `i`. */
  ghost predicate TranscribedPrefix<T>(audio: seq<T>, spans: seq<Span>,
                                       transcribe: seq<T> -> Option<seq<string>>,
                                       texts: seq<string>)
  {
    && |texts| <= |spans|
    && forall i :: 0 <= i < |texts| ==>
         transcribe(SpanAudio(audio, spans[i])).Some? &&
         texts[i] == JoinWithSpaces(transcribe(SpanAudio(audio, spans[i])).value)
  }

  /** A successful transcription of the next span extends the prefix. */
  lemma TranscribedPrefixSnoc<T>(audio: seq<T>, spans: seq<Span>,
                                 transcribe: seq<T> -> Option<seq<string>>,
                                 texts: seq<string>, segments: seq<string>)
    requires TranscribedPrefix(audio, spans, transcribe, texts) && |texts| < |spans|
    requires transcribe(SpanAudio(audio, spans[|texts|])) == Some(segments)
    ensures TranscribedPrefix(audio, spans, transcribe, texts + [JoinWithSpaces(segments)])
  {
  }

  /** `texts` holds the joined transcription of each span, in order, up to
      the first span whose transcription raised (when `failed`). */
  ghost predicate SpansTranscribed<T>(audio: seq<T>, spans: seq<Span>,
                                      transcribe: seq<T> -> Option<seq<string>>,
                                      texts: seq<string>, failed: bool)
  {
    && TranscribedPrefix(audio, spans, transcribe, texts)
    && (!failed ==> |texts| == |spans|)
    && (failed ==> |texts| < |spans| && transcribe(SpanAudio(audio, spans[|texts|])).None?)
  }

  /** The `for segment in speech_timestamps` loop: transcribe each span's
      slice, join its segment texts, log the non-empty ones; an exception
      from the transcriber ends the loop at that span. */
  method TranscribeSpans<T>(audio: seq<T>, spans: seq<Span>,
                            transcribe: seq<T> -> Option<seq<string>>)
    returns (texts: seq<string>, typed: seq<string>, failed: bool, ghost calls: seq<Call<T>>)
    ensures SpansTranscribed(audio, spans, transcribe, texts, failed)
    ensures typed == NonEmptyTexts(texts)
    ensures calls == TranscribeCalls(audio, spans[..Attempted(texts, failed)])
  {
    texts, typed, failed, calls := [], [], false, [];
    for i := 0 to |spans|
      invariant |texts| == i
      invariant TranscribedPrefix(audio, spans, transcribe, texts)
      invariant typed == NonEmptyTexts(texts)
      invariant calls == TranscribeCalls(audio, spans[..i])
    {
      var clip := SpanAudio(audio, spans[i]);
      var segments := transcribe(clip);
      TranscribeCallsSnoc(audio, spans, i);
      calls := calls + [Transcribe(clip)];
      if segments.None? {
        failed := true;
        return;
      }
      var text := JoinWithSpaces(segments.value);
      TranscribedPrefixSnoc(audio, spans, transcribe, texts, segments.value);
      NonEmptyTextsAppend(texts, text);
      texts := texts + [text];
      if text != "" {
        typed := typed + [text];
      }
    }
    assert spans[..|spans|] == spans;
  }

  lemma {:induction false} NonEmptyTextsAppend(texts: seq<string>, t: string)
    ensures NonEmptyTexts(texts + [t]) == NonEmptyTexts(texts) + (if t != "" then [t] else [])
  {
    if texts == [] {
      assert [t][1..] == [];
    } else {
      assert (texts + [t])[1..] == texts[1..] + [t];
      NonEmptyTextsAppend(texts[1..], t);
    }
  }

  class SpeechConverter<T> {
    const dryRun: bool
    /** The transcription model is loaded (`self.model is not None`). */
    var model: bool
    /** The VAD model is loaded (`self.vadModel is not None`). */
    var vadModel: bool
    /** `get_speech_timestamps` is the loaded detector, not the no-op one. */
    var vadLoaded: bool
    ghost var trace: seq<Call<T>>

    /** Models are present all together or not at all, and never in dry-run
        mode. */
    ghost predicate Valid()
      reads this
    {
      model == vadModel == vadLoaded && (dryRun ==> !model)
    }

    /** Models start unloaded; the detector is the no-op one. */
    constructor (dryRun: bool)
      ensures Valid()
      ensures this.dryRun == dryRun && !model && !vadModel && !vadLoaded && trace == []
    {
      this.dryRun := dryRun;
      model, vadModel, vadLoaded := false, false, false;
      trace := [];
    }

    /** `_ensure_models_loaded`: nothing in dry-run mode or when both models
        are present; otherwise one load attempt that installs both models
        and the detector, or, when it fails, leaves both models absent and
        the no-op detector. */
    method EnsureModelsLoaded(loadOk: bool)
      modifies this
      ensures old(Valid()) ==> Valid()
      ensures dryRun || (old(model) && old(vadModel)) ==>
                model == old(model) && vadModel == old(vadModel) &&
                vadLoaded == old(vadLoaded) && trace == old(trace)
      ensures !dryRun && !(old(model) && old(vadModel)) ==>
                model == vadModel == vadLoaded == loadOk &&
                trace == old(trace) + [LoadModels]
    {
      if dryRun {
        return;
      }
      if model && vadModel {
        return;
      }
      trace := trace + [LoadModels];
      if loadOk {
        model, vadModel, vadLoaded := true, true, true;
      } else {
        model, vadModel, vadLoaded := false, false, false;
      }
    }

    /** What analysing a full window `audio` does, from the state before
        the analysis: at most one load attempt; the detector (the loaded one,
        or the no-op that finds nothing); when spans were found and a model
        is present, one transcription per span in order; the buffer is
        cleared unless something raised. */
    twostate predicate WindowAnalyzed(ring: RingBuffer<T>, new audio: seq<T>, loadOk: bool,
                                      detect: seq<T> -> Option<seq<Span>>,
                                      transcribe: seq<T> -> Option<seq<string>>,
                                      outcome: StepOutcome, texts: seq<string>, typed: seq<string>)
      reads this, ring
    {
      var loading := !dryRun && !(old(model) && old(vadModel));
      var loads := if loading then [LoadModels] else [];
      var detected := if vadLoaded then detect(audio) else Some([]);
      var detects := if vadLoaded then [Detect(audio)] else [];
      && (loading ==> model == vadModel == vadLoaded == loadOk)
      && (!loading ==> model == old(model) && vadModel == old(vadModel) && vadLoaded == old(vadLoaded))
      && (if detected.None? then
            && outcome == Failed && texts == [] && typed == []
            && ring.Concat() == audio && trace == old(trace) + loads + detects
          else if detected.value == [] || !model then
            && outcome == Processed && texts == [] && typed == []
            && ring.Concat() == [] && trace == old(trace) + loads + detects
          else
            && (outcome == Failed || outcome == Processed)
            && SpansTranscribed(audio, detected.value, transcribe, texts, outcome == Failed)
            && typed == NonEmptyTexts(texts)
            && trace == old(trace) + loads + detects +
                        TranscribeCalls(audio, detected.value[..Attempted(texts, outcome == Failed)])
            && ring.Concat() == if outcome == Failed then audio else [])
    }

    /** Steps 4 and 5 of an iteration: load the models if one is missing
        (outside dry-run mode), then run the detector, which is the no-op
        one (no span) unless the load installed the real one. */
    method LoadAndDetect(audio: seq<T>, loadOk: bool, detect: seq<T> -> Option<seq<Span>>)
      returns (detected: Option<seq<Span>>)
      modifies this
      ensures old(Valid()) ==> Valid()
      ensures !dryRun && !(old(model) && old(vadModel)) ==> model == vadModel == vadLoaded == loadOk
      ensures dryRun || (old(model) && old(vadModel)) ==>
                model == old(model) && vadModel == old(vadModel) && vadLoaded == old(vadLoaded)
      ensures detected == if vadLoaded then detect(audio) else Some([])
      ensures trace == old(trace) + (if !dryRun && !(old(model) && old(vadModel)) then [LoadModels] else []) +
                       (if vadLoaded then [Detect(audio)] else [])
    {
      if !dryRun && (!model || !vadModel) {
        EnsureModelsLoaded(loadOk);
      }
      detected := Some([]);
      if vadLoaded {
        detected := detect(audio);
        trace := trace + [Detect(audio)];
      }
    }

    /** Steps 6 and 7 of an iteration, on a buffer holding `audio` and the
        detector's `spans`: when there is a span and a model, transcribe the
        spans in order; clear the buffer unless a transcription raised. */
    method FinishBatch(ring: RingBuffer<T>, audio: seq<T>, spans: seq<Span>,
                       transcribe: seq<T> -> Option<seq<string>>)
      returns (outcome: StepOutcome, texts: seq<string>, typed: seq<string>)
      requires ring.Valid() && ring.Concat() == audio
      modifies this`trace, ring
      ensures ring.Valid()
      ensures spans == [] || !model ==>
                && outcome == Processed && texts == [] && typed == []
                && ring.Concat() == [] && trace == old(trace)
      ensures spans != [] && model ==>
                && (outcome == Failed || outcome == Processed)
                && SpansTranscribed(audio, spans, transcribe, texts, outcome == Failed)
                && typed == NonEmptyTexts(texts)
                && trace == old(trace) + TranscribeCalls(audio, spans[..Attempted(texts, outcome == Failed)])
                && ring.Concat() == if outcome == Failed then audio else []
    {
      texts, typed := [], [];
      var failed := false;
      if spans != [] && model {
        ghost var calls;
        texts, typed, failed, calls := TranscribeSpans(audio, spans, transcribe);
        trace := trace + calls;
      }
      if !failed {
        ring.Clear();
      }
      outcome := if failed then Failed else Processed;
    }

    /** Steps 4 to 7 of an iteration, on a buffer holding `audio`. */
    method AnalyzeWindow(ring: RingBuffer<T>, audio: seq<T>, loadOk: bool,
                         detect: seq<T> -> Option<seq<Span>>,
                         transcribe: seq<T> -> Option<seq<string>>)
      returns (outcome: StepOutcome, texts: seq<string>, typed: seq<string>)
      requires ring.Valid() && ring.Concat() == audio
      modifies this, ring
      ensures ring.Valid()
      ensures old(Valid()) ==> Valid()
      ensures WindowAnalyzed(ring, audio, loadOk, detect, transcribe, outcome, texts, typed)
    {
      var detected := LoadAndDetect(audio, loadOk, detect);
      if detected.None? {
        outcome, texts, typed := Failed, [], [];
      } else {
        outcome, texts, typed := FinishBatch(ring, audio, detected.value, transcribe);
      }
    }

    /** One iteration of the consumer loop on `ring`, with `chunk == None`
        for a queue timeout: append, skip while the buffer is shorter than
        `minWindow`, otherwise analyse the whole buffer. */
    method ProcessStep(ring: RingBuffer<T>, chunk: Option<seq<T>>, minWindow: int,
                       loadOk: bool, detect: seq<T> -> Option<seq<Span>>,
                       transcribe: seq<T> -> Option<seq<string>>)
      returns (outcome: StepOutcome, texts: seq<string>, typed: seq<string>)
      requires ring.Valid() && minWindow >= 160
      modifies this, ring
      ensures ring.Valid()
      ensures old(Valid()) ==> Valid()
      ensures chunk.None? <==> outcome == TimedOut
      ensures chunk.None? ==> texts == [] && typed == [] && unchanged(this) && unchanged(ring)
      ensures chunk.Some? && |Newest(old(ring.Concat()) + chunk.value, ring.capacity)| < minWindow ==>
                && outcome == BelowWindow && texts == [] && typed == [] && unchanged(this)
                && ring.Concat() == Newest(old(ring.Concat()) + chunk.value, ring.capacity)
      ensures chunk.Some? && |Newest(old(ring.Concat()) + chunk.value, ring.capacity)| >= minWindow ==>
                WindowAnalyzed(ring, Newest(old(ring.Concat()) + chunk.value, ring.capacity),
                               loadOk, detect, transcribe, outcome, texts, typed)
    {
      texts, typed := [], [];
      if chunk.None? {
        outcome := TimedOut;
        return;
      }
      ring.Append(chunk);
      var audio := ring.Concat();
      if |audio| < minWindow {
        outcome := BelowWindow;
        return;
      }
      outcome, texts, typed := AnalyzeWindow(ring, audio, loadOk, detect, transcribe);
    }
  }

  /** A converter whose models are present, fed one 320-sample chunk with a
      320-sample window: the detector reports one span, the transcriber is
      called once, its text is typed and the buffer is cleared. */
  method OneSpanScenario()
  {
    var sc := new SpeechConverter<int>(false);
    sc.model, sc.vadModel, sc.vadLoaded := true, true, true;
    var ring := new RingBuffer<int>(32000);
    var chunk := seq(320, i => 0);
    var detect := (audio: seq<int>) => Some([Span(0, if |audio| < 160 then |audio| else 160)]);
    var transcribe := (clip: seq<int>) => Some(["hello"]);
    assert ring.Concat() == [] && [] + chunk == chunk && |chunk| == 320;
    var outcome, texts, typed := sc.ProcessStep(ring, Some(chunk), 320, true, detect, transcribe);
    assert JoinWithSpaces(["hello"]) == "hello";
    assert NonEmptyTexts(["hello"]) == ["hello"];
    assert outcome == Processed && typed == ["hello"] && ring.Concat() == [];
  }
}

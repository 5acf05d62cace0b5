/**
 * The running program of main.py with its threads replaced by explicit
 * steps: the capture loop (`record_audio`), the transcription loop
 * (`transcribe_forever`) and the printing loop of `main`, sharing the
 * audio queue and the result queue. Any interleaving of their steps keeps
 * `Valid()`, which ties both queues to what has been captured so far.
 */
module Pipeline {
  import opened Wrappers
  import opened Completion
  import opened WhisperModel
  import opened TempFiles
  import opened Stages

  class VoiceLoop {
    const cfg: Config

    /** The audio queue: items captured and not yet transcribed, oldest first. */
    var audioQueue: seq<AudioData>
    /** The result queue: messages produced and not yet printed, oldest first. */
    var resultQueue: seq<ResultMessage>
    /** The capture loop's counter `i`: the number of utterances captured so far. */
    var index: nat

    /** Every utterance captured so far, in order. */
    ghost var captured: seq<Utterance>
    /** Every iteration of the transcription loop so far, in order. */
    ghost var turns: seq<Turn>
    /** Every message printed so far, in order. */
    ghost var shown: seq<ResultMessage>
    /** Every prompt sent to the completion service so far. */
    ghost var prompts: seq<string>
    /** Every text handed to speech synthesis so far. */
    ghost var spoken: seq<string>
    /** Every temporary file removed so far. */
    ghost var removed: seq<string>

    ghost predicate Valid()
      reads this
    {
      && StopConfigured(cfg)
      && index == |captured|
      && Items(turns) + audioQueue == Frames(cfg, captured)
      && Log(shown + resultQueue, prompts, spoken, removed) == RunLog(cfg, turns)
      && (cfg.saveFile ==> forall a :: a in audioQueue ==> a.WavFile?)
    }

    /** Start-up (main.py:104-109): both queues empty, nothing captured yet. */
    constructor (cfg: Config)
      requires StopConfigured(cfg)
      ensures Valid() && this.cfg == cfg
      ensures audioQueue == [] && resultQueue == [] && index == 0
      ensures captured == [] && turns == [] && shown == []
      ensures prompts == [] && spoken == [] && removed == []
    {
      this.cfg := cfg;
      audioQueue, resultQueue, index := [], [], 0;
      captured, turns, shown := [], [], [];
      prompts, spoken, removed := [], [], [];
    }

    /**
     * One iteration of the capture loop (main.py:50-63): the utterance
     * becomes the file `temp{i}.wav` in file-saving mode and a waveform
     * otherwise, is appended to the audio queue, and `i` moves on.
     */
    method Capture(u: Utterance)
      requires Valid()
      modifies this
      ensures Valid()
      ensures audioQueue == old(audioQueue) + [Frame(cfg, u, old(index))]
      ensures index == old(index) + 1
      ensures captured == old(captured) + [u]
      ensures resultQueue == old(resultQueue) && turns == old(turns) && shown == old(shown)
      ensures prompts == old(prompts) && spoken == old(spoken) && removed == old(removed)
    {
      var audioData: AudioData;
      if cfg.saveFile {
        var filename := JoinPath(cfg.tempDir, TempName(index));
        audioData := WavFile(filename);
      } else {
        audioData := Waveform(u.samples);
      }
      audioQueue := audioQueue + [audioData];
      index := index + 1;
      FramesSnoc(cfg, captured, u);
      captured := captured + [u];
    }

    /**
     * The capture loop run over the utterances `us` (main.py:48-63): one
     * item per utterance, appended in the order heard, item `k` for the
     * utterance with index `old(index) + k`.
     */
    method RecordAudio(us: seq<Utterance>)
      requires Valid()
      modifies this
      ensures Valid()
      ensures captured == old(captured) + us
      ensures index == old(index) + |us|
      ensures |audioQueue| == |old(audioQueue)| + |us|
      ensures audioQueue[..|old(audioQueue)|] == old(audioQueue)
      ensures forall k :: 0 <= k < |us| ==>
        audioQueue[|old(audioQueue)| + k] == Frame(cfg, us[k], old(index) + k)
      ensures resultQueue == old(resultQueue) && turns == old(turns) && shown == old(shown)
      ensures prompts == old(prompts) && spoken == old(spoken) && removed == old(removed)
    {
      for n := 0 to |us|
        invariant Valid()
        invariant captured == old(captured) + us[..n]
        invariant index == old(index) + n
        invariant |audioQueue| == |old(audioQueue)| + n
        invariant audioQueue[..|old(audioQueue)|] == old(audioQueue)
        invariant forall k :: 0 <= k < n ==>
          audioQueue[|old(audioQueue)| + k] == Frame(cfg, us[k], old(index) + k)
        invariant resultQueue == old(resultQueue) && turns == old(turns) && shown == old(shown)
        invariant prompts == old(prompts) && spoken == old(spoken) && removed == old(removed)
      {
        Capture(us[n]);
        assert us[..n + 1] == us[..n] + [us[n]];
      }
      assert us[..|us|] == us;
    }

    /**
     * Speech-to-text on one queue item (main.py:68-69): with the language
     * forced to English in English-only mode, detected otherwise.
     */
    method Transcribe(co: Collaborators, audioData: AudioData) returns (result: Transcription)
      ensures result == co.transcribe(audioData, LanguageHint(cfg.english))
    {
      if cfg.english {
        result := co.transcribe(audioData, Some("english"));
      } else {
        result := co.transcribe(audioData, None);
      }
    }

    /**
     * The normal-mode part of one iteration (main.py:71-88): report the
     * transcript, send the prompt built from it, report the reply cut at
     * the stop sequence and hand that same reply to speech synthesis.
     */
    method Respond(co: Collaborators, transcript: string)
      requires cfg.stopSequence != []
      modifies this
      ensures resultQueue == old(resultQueue) + [Line(YouSaid + transcript),
        Line(ReplyPrefix + TrimAtStop(co.complete(ComposePrompt(cfg.prompt, transcript)), cfg.stopSequence))]
      ensures prompts == old(prompts) + [ComposePrompt(cfg.prompt, transcript)]
      ensures spoken == old(spoken) + [TrimAtStop(co.complete(ComposePrompt(cfg.prompt, transcript)), cfg.stopSequence)]
      ensures audioQueue == old(audioQueue) && index == old(index) && captured == old(captured)
      ensures turns == old(turns) && shown == old(shown) && removed == old(removed)
    {
      var prompt := ComposePrompt(cfg.prompt, transcript);
      var completion := co.complete(prompt);
      var trimmedCompletion := TrimAtStop(completion, cfg.stopSequence);
      resultQueue := resultQueue + [Line(YouSaid + transcript), Line(ReplyPrefix + trimmedCompletion)];
      prompts := prompts + [prompt];
      spoken := spoken + [trimmedCompletion];
    }

    /**
     * What one iteration does with the transcription result (main.py:70-89):
     * the raw result in verbose mode, Respond otherwise.
     */
    method Report(co: Collaborators, result: Transcription, ghost t: Turn)
      requires StopConfigured(cfg)
      requires t.co == co && result == Heard(cfg, t)
      modifies this
      ensures resultQueue == old(resultQueue) + TurnLog(cfg, t).messages
      ensures prompts == old(prompts) + TurnLog(cfg, t).prompts
      ensures spoken == old(spoken) + TurnLog(cfg, t).replies
      ensures audioQueue == old(audioQueue) && index == old(index) && captured == old(captured)
      ensures turns == old(turns) && shown == old(shown) && removed == old(removed)
    {
      if !cfg.verbose {
        Respond(co, result.text);
      } else {
        resultQueue := resultQueue + [Raw(result)];
      }
    }

    /** Deletes the item's temporary file in file-saving mode (main.py:91). */
    method RemoveSaved(audioData: AudioData, ghost t: Turn)
      requires StopConfigured(cfg)
      requires cfg.saveFile ==> audioData.WavFile?
      requires t.item == audioData
      modifies this`removed
      ensures removed == old(removed) + (if cfg.saveFile then [audioData.path] else [])
      ensures removed == old(removed) + TurnLog(cfg, t).removed
    {
      if cfg.saveFile {
        removed := removed + [audioData.path];
      }
    }

    /**
     * One iteration of the transcription loop (main.py:67-91): take the
     * oldest item, transcribe it, report as Report does and then, in
     * file-saving mode, remove the item's file. The queue's `get` blocks
     * while it is empty, so a step happens only on a non-empty queue.
     */
    method TranscribeStep(co: Collaborators)
      requires Valid()
      requires audioQueue != []
      modifies this
      ensures Valid()
      ensures turns == old(turns) + [Turn(old(audioQueue)[0], co)]
      ensures audioQueue == old(audioQueue)[1..]
      ensures resultQueue == old(resultQueue) + TurnLog(cfg, Turn(old(audioQueue)[0], co)).messages
      ensures captured == old(captured) && index == old(index) && shown == old(shown)
    {
      ghost var t := Turn(audioQueue[0], co);
      LogStep(cfg, shown, resultQueue, prompts, spoken, removed, turns, t);
      TakeHead(Items(turns), audioQueue);
      ItemsSnoc(turns, t);

      var audioData := audioQueue[0];
      audioQueue := audioQueue[1..];
      var result := Transcribe(co, audioData);
      Report(co, result, t);
      RemoveSaved(audioData, t);
      turns := turns + [t];
    }

    /**
     * The transcription loop run for `|answers|` iterations, the collaborators
     * of iteration `k` answering as `answers[k]`: the oldest `|answers|`
     * items are taken, each exactly once and in queue order.
     */
    method TranscribeForever(answers: seq<Collaborators>)
      requires Valid()
      requires |answers| <= |audioQueue|
      modifies this
      ensures Valid()
      ensures |turns| == |old(turns)| + |answers|
      ensures turns[..|old(turns)|] == old(turns)
      ensures forall k :: 0 <= k < |answers| ==>
        turns[|old(turns)| + k] == Turn(old(audioQueue)[k], answers[k])
      ensures audioQueue == old(audioQueue)[|answers|..]
      ensures |resultQueue| >= |old(resultQueue)|
      ensures resultQueue[..|old(resultQueue)|] == old(resultQueue)
      ensures captured == old(captured) && index == old(index) && shown == old(shown)
    {
      for n := 0 to |answers|
        invariant Valid()
        invariant |turns| == |old(turns)| + n
        invariant turns[..|old(turns)|] == old(turns)
        invariant forall k :: 0 <= k < n ==>
          turns[|old(turns)| + k] == Turn(old(audioQueue)[k], answers[k])
        invariant audioQueue == old(audioQueue)[n..]
        invariant |resultQueue| >= |old(resultQueue)|
        invariant resultQueue[..|old(resultQueue)|] == old(resultQueue)
        invariant captured == old(captured) && index == old(index) && shown == old(shown)
      {
        TranscribeStep(answers[n]);
      }
    }

    /** One iteration of the printing loop (main.py:114-115): the oldest message is taken and shown. */
    method Present() returns (msg: ResultMessage)
      requires Valid()
      requires resultQueue != []
      modifies this
      ensures Valid()
      ensures msg == old(resultQueue)[0]
      ensures resultQueue == old(resultQueue)[1..]
      ensures shown == old(shown) + [msg]
      ensures audioQueue == old(audioQueue) && turns == old(turns) && captured == old(captured)
      ensures index == old(index)
    {
      msg := resultQueue[0];
      ghost var all := shown + resultQueue;
      assert (shown + [msg]) + resultQueue[1..] == all;
      resultQueue := resultQueue[1..];
      shown := shown + [msg];
    }
  }
}

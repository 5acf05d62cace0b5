/**
 * The values that flow through the two queues of main.py and a pure
 * statement of what one iteration of each loop produces: the capture loop
 * of `record_audio` (lines 48-63) and the transcription loop of
 * `transcribe_forever` (lines 65-91). The speech-to-text model and the
 * completion service are functions handed in per iteration.
 */
module Stages {
  import opened Wrappers
  import opened Completion
  import opened WhisperModel
  import opened TempFiles

  /** One utterance as the microphone delivers it: raw 16-bit PCM samples. */
  datatype Utterance = Utterance(samples: seq<int>)

  /** An audio-queue item: the waveform itself, or the path of the WAV file it was exported to. */
  datatype AudioData = Waveform(samples: seq<int>) | WavFile(path: string)

  /** The speech-to-text result: its "text" entry and the detected language. */
  datatype Transcription = Transcription(text: string, language: string)

  /** A result-queue item: a status line, or in verbose mode the raw transcription result. */
  datatype ResultMessage = Line(text: string) | Raw(result: Transcription)

  /** The settings fixed at start-up: command-line flags and configuration-file entries. */
  datatype Config = Config(
    english: bool,
    verbose: bool,
    saveFile: bool,
    tempDir: string,
    prompt: PromptSettings,
    stopSequence: string)

  /**
   * The answers of the two remote collaborators during one iteration: the
   * speech-to-text model (audio and language hint to result) and the
   * completion service (prompt to completion text).
   */
  datatype Collaborators = Collaborators(
    transcribe: (AudioData, Option<string>) -> Transcription,
    complete: string -> string)

  /** One iteration of the transcription loop: the item it took and the collaborators that answered. */
  datatype Turn = Turn(item: AudioData, co: Collaborators)

  const YouSaid: string := "You said: "
  const ReplyPrefix: string := "Emmy:"

  /** The queue item made from the utterance with index `i` (main.py:51-61). */
  function Frame(cfg: Config, u: Utterance, i: nat): (item: AudioData)
    ensures item.WavFile? <==> cfg.saveFile
  {
    if cfg.saveFile then WavFile(TempPath(cfg.tempDir, i)) else Waveform(u.samples)
  }

  /** The items the capture loop enqueues for the utterances `us`, heard in this order. */
  function Frames(cfg: Config, us: seq<Utterance>): (items: seq<AudioData>)
    ensures |items| == |us|
  {
    seq(|us|, k requires 0 <= k < |us| => Frame(cfg, us[k], k))
  }

  /** In file-saving mode every utterance gets its own file: no two queue items are equal. */
  lemma FramesDistinct(cfg: Config, us: seq<Utterance>, i: nat, j: nat)
    requires cfg.saveFile
    requires i < j < |us|
    ensures Frames(cfg, us)[i] != Frames(cfg, us)[j]
  {
    if Frames(cfg, us)[i] == Frames(cfg, us)[j] {
      TempPathInjective(cfg.tempDir, i, j);
    }
  }

  /** Capturing one more utterance appends exactly its item. */
  lemma FramesSnoc(cfg: Config, us: seq<Utterance>, u: Utterance)
    ensures Frames(cfg, us + [u]) == Frames(cfg, us) + [Frame(cfg, u, |us|)]
  {
  }

  /** The transcription result of one turn; the language is forced to English in English-only mode. */
  function Heard(cfg: Config, t: Turn): (result: Transcription)
  {
    t.co.transcribe(t.item, LanguageHint(cfg.english))
  }

  /** The prompt sent to the completion service in one non-verbose turn. */
  function PromptOf(cfg: Config, t: Turn): (prompt: string)
  {
    ComposePrompt(cfg.prompt, Heard(cfg, t).text)
  }

  /**
   * The stop sequence is read only in the normal mode (main.py:86 lies in
   * the branch of line 70), where `split` needs it to be non-empty.
   */
  predicate StopConfigured(cfg: Config)
  {
    !cfg.verbose ==> cfg.stopSequence != []
  }

  /** The reply of one non-verbose turn, cut at the stop sequence. */
  function ReplyOf(cfg: Config, t: Turn): (reply: string)
    requires cfg.stopSequence != []
  {
    TrimAtStop(t.co.complete(PromptOf(cfg, t)), cfg.stopSequence)
  }

  /**
   * What a run of turns has done so far: the messages put on the result
   * queue, the prompts sent to the completion service, the replies handed
   * to speech synthesis and the files removed, each in order.
   */
  datatype Log = Log(messages: seq<ResultMessage>, prompts: seq<string>, replies: seq<string>, removed: seq<string>)

  /** Two logs one after the other. */
  function Concat(a: Log, b: Log): (ab: Log)
  {
    Log(a.messages + b.messages, a.prompts + b.prompts, a.replies + b.replies, a.removed + b.removed)
  }

  /**
   * What one turn does (main.py:70-91): in verbose mode it reports the raw
   * result only; otherwise it reports the transcript, sends one prompt,
   * reports the reply and speaks it. In file-saving mode it then removes
   * the item's file.
   */
  function TurnLog(cfg: Config, t: Turn): (log: Log)
    requires StopConfigured(cfg)
    ensures |log.messages| == if cfg.verbose then 1 else 2
    ensures |log.prompts| == |log.replies| == if cfg.verbose then 0 else 1
    ensures |log.removed| == if cfg.saveFile && t.item.WavFile? then 1 else 0
  {
    var removed := if cfg.saveFile && t.item.WavFile? then [t.item.path] else [];
    if cfg.verbose then Log([Raw(Heard(cfg, t))], [], [], removed)
    else Log([Line(YouSaid + Heard(cfg, t).text), Line(ReplyPrefix + ReplyOf(cfg, t))],
             [PromptOf(cfg, t)], [ReplyOf(cfg, t)], removed)
  }

  /** The items taken by a run of turns, in order. */
  function Items(ts: seq<Turn>): (items: seq<AudioData>)
  {
    seq(|ts|, k requires 0 <= k < |ts| => ts[k].item)
  }

  /** What a run of turns has done, turn after turn. */
  function RunLog(cfg: Config, ts: seq<Turn>): (log: Log)
    requires StopConfigured(cfg)
    ensures |log.messages| == if cfg.verbose then |ts| else 2 * |ts|
    ensures |log.prompts| == |log.replies| == if cfg.verbose then 0 else |ts|
    ensures |log.removed| <= |ts|
  {
    if ts == [] then Log([], [], [], [])
    else Concat(RunLog(cfg, ts[..|ts| - 1]), TurnLog(cfg, ts[|ts| - 1]))
  }

  /** Moving the head of a queue to the end of what has been taken keeps their concatenation. */
  lemma TakeHead<T>(taken: seq<T>, queue: seq<T>)
    requires queue != []
    ensures (taken + [queue[0]]) + queue[1..] == taken + queue
  {
    assert queue == [queue[0]] + queue[1..];
  }

  /** One more turn extends the run's log by that turn's log. */
  lemma RunSnoc(cfg: Config, ts: seq<Turn>, t: Turn)
    requires StopConfigured(cfg)
    ensures Items(ts + [t]) == Items(ts) + [t.item]
    ensures RunLog(cfg, ts + [t]) == Concat(RunLog(cfg, ts), TurnLog(cfg, t))
  {
    assert (ts + [t])[..|ts|] == ts;
  }

  /** Taking one more turn appends its item to the items taken. */
  lemma ItemsSnoc(ts: seq<Turn>, t: Turn)
    ensures Items(ts + [t]) == Items(ts) + [t.item]
  {
  }

  /**
   * When the messages shown and still queued, the prompts, the replies and
   * the removed files are the log of `ts`, appending what turn `t` does to
   * each (its messages after those still queued) gives the log of `ts + [t]`.
   */
  lemma LogStep(cfg: Config, shown: seq<ResultMessage>, pending: seq<ResultMessage>,
                prompts: seq<string>, replies: seq<string>, removed: seq<string>, ts: seq<Turn>, t: Turn)
    requires StopConfigured(cfg)
    requires Log(shown + pending, prompts, replies, removed) == RunLog(cfg, ts)
    ensures var l := TurnLog(cfg, t);
      Log(shown + (pending + l.messages), prompts + l.prompts, replies + l.replies, removed + l.removed)
        == RunLog(cfg, ts + [t])
  {
    RunSnoc(cfg, ts, t);
    assert shown + (pending + TurnLog(cfg, t).messages) == (shown + pending) + TurnLog(cfg, t).messages;
  }

  /**
   * In the normal mode turn `k` contributes messages `2k` and `2k + 1`:
   * first what was heard, then the reply; its prompt is the `k`-th one
   * sent, and the `k`-th text spoken is that same reply.
   */
  lemma {:induction false} MessagesInOrder(cfg: Config, ts: seq<Turn>, k: nat)
    requires cfg.stopSequence != [] && !cfg.verbose
    requires k < |ts|
    ensures var log := RunLog(cfg, ts);
      && |log.messages| == 2 * |ts| && |log.prompts| == |ts| && |log.replies| == |ts|
      && log.messages[2 * k] == Line(YouSaid + Heard(cfg, ts[k]).text)
      && log.messages[2 * k + 1] == Line(ReplyPrefix + log.replies[k])
      && log.prompts[k] == ComposePrompt(cfg.prompt, Heard(cfg, ts[k]).text)
      && log.replies[k] == TrimAtStop(ts[k].co.complete(log.prompts[k]), cfg.stopSequence)
  {
    var init := ts[..|ts| - 1];
    if k < |ts| - 1 {
      MessagesInOrder(cfg, init, k);
      assert init[k] == ts[k];
    } else if init != [] {
      MessagesInOrder(cfg, init, |init| - 1);
    }
  }

  /**
   * Every spoken reply is a prefix of the completion its prompt received
   * and never contains the stop sequence.
   */
  lemma RepliesTrimmed(cfg: Config, ts: seq<Turn>, k: nat)
    requires cfg.stopSequence != [] && !cfg.verbose
    requires k < |ts|
    ensures |RunLog(cfg, ts).prompts| == |ts| && |RunLog(cfg, ts).replies| == |ts|
    ensures RunLog(cfg, ts).replies[k] <= ts[k].co.complete(RunLog(cfg, ts).prompts[k])
    ensures !Contains(RunLog(cfg, ts).replies[k], cfg.stopSequence)
  {
    MessagesInOrder(cfg, ts, k);
    TrimAtStopSpec(ts[k].co.complete(RunLog(cfg, ts).prompts[k]), cfg.stopSequence);
  }

  /**
   * In verbose mode turn `k` contributes exactly its raw result as message
   * `k`, and no completion is requested and nothing is spoken.
   */
  lemma {:induction false} VerboseMessages(cfg: Config, ts: seq<Turn>)
    requires cfg.verbose
    ensures |RunLog(cfg, ts).messages| == |ts|
    ensures forall k :: 0 <= k < |ts| ==> RunLog(cfg, ts).messages[k] == Raw(Heard(cfg, ts[k]))
    ensures RunLog(cfg, ts).prompts == [] && RunLog(cfg, ts).replies == []
  {
    if ts != [] {
      var init := ts[..|ts| - 1];
      VerboseMessages(cfg, init);
      assert forall k :: 0 <= k < |init| ==> init[k] == ts[k];
    }
  }

  /**
   * In file-saving mode turn `k` removes the file its item names; without
   * file saving nothing is removed.
   */
  lemma {:induction false} RemovedItems(cfg: Config, ts: seq<Turn>)
    requires StopConfigured(cfg)
    requires cfg.saveFile ==> forall k :: 0 <= k < |ts| ==> ts[k].item.WavFile?
    ensures cfg.saveFile ==> |RunLog(cfg, ts).removed| == |ts|
    ensures cfg.saveFile ==> forall k :: 0 <= k < |ts| ==> RunLog(cfg, ts).removed[k] == ts[k].item.path
    ensures !cfg.saveFile ==> RunLog(cfg, ts).removed == []
  {
    if ts != [] {
      var init := ts[..|ts| - 1];
      RemovedItems(cfg, init);
      var removed, before := RunLog(cfg, ts).removed, RunLog(cfg, init).removed;
      assert removed == before + TurnLog(cfg, ts[|ts| - 1]).removed;
      if cfg.saveFile {
        forall k | 0 <= k < |ts|
          ensures removed[k] == ts[k].item.path
        {
          if k < |init| {
            assert removed[k] == before[k] == init[k].item.path;
          }
        }
      }
    }
  }

  /**
   * When the turns took the items the capture loop produced, in order, the
   * file removed by turn `k` is the one written for utterance `k`; without
   * file saving nothing is removed.
   */
  lemma RemovedTempFiles(cfg: Config, us: seq<Utterance>, ts: seq<Turn>)
    requires StopConfigured(cfg)
    requires Items(ts) <= Frames(cfg, us)
    ensures cfg.saveFile ==> |RunLog(cfg, ts).removed| == |ts|
    ensures cfg.saveFile ==> forall k :: 0 <= k < |ts| ==> RunLog(cfg, ts).removed[k] == TempPath(cfg.tempDir, k)
    ensures !cfg.saveFile ==> RunLog(cfg, ts).removed == []
  {
    assert forall k :: 0 <= k < |ts| ==> ts[k].item == Items(ts)[k] == Frames(cfg, us)[k];
    RemovedItems(cfg, ts);
  }

  /** In file-saving mode no file is removed twice. */
  lemma RemovedDistinct(cfg: Config, us: seq<Utterance>, ts: seq<Turn>, i: nat, j: nat)
    requires StopConfigured(cfg)
    requires Items(ts) <= Frames(cfg, us)
    requires cfg.saveFile && i < j < |ts|
    ensures |RunLog(cfg, ts).removed| == |ts|
    ensures RunLog(cfg, ts).removed[i] != RunLog(cfg, ts).removed[j]
  {
    RemovedTempFiles(cfg, us, ts);
    if RunLog(cfg, ts).removed[i] == RunLog(cfg, ts).removed[j] {
      TempPathInjective(cfg.tempDir, i, j);
    }
  }

  /**
   * Across both queues: the `k`-th "You said" line in the normal mode
   * reports the transcript of the `k`-th captured utterance.
   */
  lemma HeardInCaptureOrder(cfg: Config, us: seq<Utterance>, ts: seq<Turn>, k: nat)
    requires cfg.stopSequence != [] && !cfg.verbose
    requires Items(ts) <= Frames(cfg, us)
    requires k < |ts|
    ensures |RunLog(cfg, ts).messages| == 2 * |ts|
    ensures RunLog(cfg, ts).messages[2 * k]
         == Line(YouSaid + ts[k].co.transcribe(Frame(cfg, us[k], k), LanguageHint(cfg.english)).text)
  {
    MessagesInOrder(cfg, ts, k);
    assert ts[k].item == Items(ts)[k] == Frames(cfg, us)[k];
  }
}

# EmmyAI voice loop in Dafny

EmmyAI (`main.py`) is a voice assistant built from three loops joined by two
FIFO queues:

- the capture loop `record_audio` turns each utterance heard on the
  microphone into an audio-queue item. In file-saving mode the item is the
  path of a WAV file `temp{i}.wav` in a temporary directory. Otherwise it is
  the waveform itself;
- the transcription loop `transcribe_forever` takes one item at a time and
  transcribes it with Whisper:
  - in verbose mode it puts the raw result on the result queue;
  - otherwise it reports `"You said: " + transcript`, sends a prompt built
    from the transcript to the completion service, cuts the reply at the
    stop sequence, reports `"Emmy:" + reply` and speaks the reply;
  - in file-saving mode it then removes the item's file;
- the main loop prints the result queue.

The model has these parts:

- `Completion`: cutting the reply at the stop sequence, which is Python's
  `text.split(stop, 1)[0]`, and composing the prompt.
- `WhisperModel`: the model name, where `".en"` is appended in English-only
  mode except for `"large"`, and the language hint.
- `TempFiles`: the temporary file names, with `os.path.join` on POSIX and
  `str(i)` written out.
- `Stages`: the values that flow through the queues. It also states, as
  pure functions, what a run of capture steps and a run of transcription
  steps produce (`Frames`, `RunLog`).
- `Pipeline`: the class `VoiceLoop`. It holds both queues and the capture
  counter, and has one method per loop iteration and per loop. Its
  invariant `Valid()` ties the queues to what has been captured and done:
  - the items taken plus the audio queue equal the items captured;
  - the messages printed plus the result queue equal the messages the turns
    produced;
  - the prompts sent, the replies spoken and the files removed are those
    the turns produced.

Nothing outside the program is modelled. The speech-to-text model and the
completion service are functions passed in for each iteration
(`Collaborators`), so a collaborator may answer differently each time.
Speech synthesis, completion calls and `os.remove` are recorded in ghost
logs (`spoken`, `prompts`, `removed`). A blocking `queue.get` is modelled
as a step that can only be taken on a non-empty queue. The infinite loops
are run for a given number of iterations.

Three facts about the code shape the model:

- The status lines are `"You said: "` and `"Emmy:"` (main.py:72, 87).
- There is no per-utterance error handling: nothing in the loop catches an
  exception, so no error messages are modelled.
- The temporary file is removed at the end of the iteration (main.py:91),
  after the completion and speech calls have returned.

The stop sequence is read only in the normal mode (main.py:86, inside the
branch of line 70). The model therefore asks for a non-empty stop sequence
only when verbose mode is off (`Stages.StopConfigured`).

## Model

| member | source | states |
|---|---|---|
| Completion.FirstIndex | main.py:86 | the search `split` performs for the separator; a found index leaves room for the whole separator; FirstIndexSpec states that it is the leftmost occurrence |
| Completion.FirstIndexSpec | main.py:86 | the first-occurrence search finds an occurrence of the separator with none before it, or reports none when it does not occur at all |
| Completion.SplitOnce | main.py:86 | `split(sep, 1)` yields one or two parts |
| Completion.SplitOnceSpec | main.py:86 | one part exactly when the separator is absent, and then it is the whole string; otherwise the first part, the separator and the second part make up the string, with the separator at its first occurrence |
| Completion.SplitOnceJoin | main.py:86 | joining the parts with the separator gives back the original string |
| Completion.TrimAtStop | main.py:86 | `text.split(stop, 1)[0]`; the kept reply is never longer than the completion; TrimAtStopSpec, TrimAtFirstOccurrence and TrimIdempotent state what it keeps |
| Completion.TrimAtStopSpec | main.py:86 | the kept reply is a prefix of the completion; it is the whole completion when the stop sequence is absent; otherwise it ends where the first stop sequence starts; it never contains the stop sequence |
| Completion.TrimAtFirstOccurrence | main.py:86 | when the stop sequence first occurs at `k`, the kept reply is exactly `text[..k]` |
| Completion.TrimIdempotent | main.py:86 | trimming an already trimmed reply changes nothing |
| Completion.ExampleFirstStop | main.py:86 | in the example reply the stop sequence first starts at index 12 |
| Completion.TrimExample | main.py:86 | `"Sure thing! <\|stop\|> ignored"` cut at `"<\|stop\|>"` is `"Sure thing! "` |
| Completion.ComposePrompt | main.py:75 | the prompt sent for a transcript; its length is the sum of the pieces plus the three characters of `" "` and `": "`; ComposePromptLayout places each piece and PromptRoundTrip reads the transcript back |
| Completion.ComposePromptLayout | main.py:75 | the prompt is the preamble, `" "`, the user name, `": "`, the transcript and the start sequence, each at its position, with the exact total length |
| Completion.TranscriptOf | main.py:75 | a transcript recovered from a prompt composes back to that same prompt |
| Completion.PromptRoundTrip | main.py:75 | the transcript is recovered unchanged from its prompt: nothing is inserted or dropped |
| Completion.ComposePromptInjective | main.py:75 | different transcripts give different prompts |
| WhisperModel.ResolveModelName | main.py:105-106 | with English requested and a model other than `"large"`, the name is the model followed by `".en"`; otherwise it is the model unchanged |
| WhisperModel.ResolveModelNameChoices | main.py:105-106 | for every size the command line accepts, the loaded name is an English-only variant exactly when English is requested and the size is not `"large"`, and the size can be read back from it |
| WhisperModel.LanguageHint | main.py:68-69 | a language is passed exactly in English-only mode, and it is `"english"` |
| TempFiles.DecimalString | main.py:54 | `str(i)`: never empty, and one character exactly for `i < 10`; DecimalStringDigits and DecimalRoundTrip state the digits and their value |
| TempFiles.DecimalStringDigits | main.py:54 | `str(i)` is a non-empty run of decimal digits without a leading zero |
| TempFiles.DecimalRoundTrip | main.py:54 | reading back the digits of `str(i)` gives `i` |
| TempFiles.DecimalStringInjective | main.py:54 | different counters give different decimal strings |
| TempFiles.JoinPath | main.py:54 | `os.path.join(dir, name)` for a relative name: the path adds at most one character to the directory and the name; JoinPathParts states where the `/` goes |
| TempFiles.JoinPathParts | main.py:54 | the joined path starts with the directory and ends with the file name; exactly one `/` is put between them when the directory is non-empty and does not end in `/`, and nothing otherwise |
| TempFiles.TempNameParts | main.py:54 | the file name is `"temp"`, then the counter's digits, then `".wav"` |
| TempFiles.TempPath | main.py:54 | the path `temp_dir/temp{i}.wav` is at least the directory plus the nine characters of `temp0.wav`; TempPathInjective states that different indices give different paths |
| TempFiles.TempPathInjective | main.py:54 | two different counter values give two different file paths |
| Stages.Frame | main.py:51-61 | the queue item made for the utterance with index `i` is a file path exactly in file-saving mode |
| Stages.Frames | main.py:48-63 | the items the capture loop makes, one per utterance; FramesSnoc and FramesDistinct state how it grows and that its paths differ |
| Stages.FramesDistinct | main.py:48-63 | in file-saving mode no two captured utterances produce the same queue item |
| Stages.FramesSnoc | main.py:62-63 | capturing one more utterance appends exactly its item, numbered with the current counter |
| Stages.TurnLog | main.py:70-91 | what one iteration does: one message in verbose mode and two otherwise, one prompt and one spoken reply only in the normal mode, and one removed file only when a saved file was taken; MessagesInOrder and VerboseMessages state the contents |
| Stages.RunLog | main.py:65-91 | what a run of iterations does, iteration after iteration: `n` messages in verbose mode and `2n` otherwise, as many prompts as spoken replies, at most one removed file per iteration; RunSnoc, MessagesInOrder, VerboseMessages and RemovedTempFiles state the contents |
| Stages.LogStep | main.py:66-91 | when the printed and queued messages, prompts, replies and removed files are the log of a run, appending one iteration's log to each gives the log of the longer run |
| Stages.RunSnoc | main.py:66-91 | one more iteration takes one more item and extends the log by what that iteration does |
| Stages.MessagesInOrder | main.py:70-88 | in normal mode, iteration `k` produces messages `2k` and `2k+1`: `"You said: "` plus its transcript, then `"Emmy:"` plus its reply; its prompt is composed from that transcript; its reply is the completion of that prompt cut at the stop sequence; the same reply is spoken |
| Stages.RepliesTrimmed | main.py:86-88 | every spoken reply is a prefix of the completion its prompt received and contains no stop sequence |
| Stages.VerboseMessages | main.py:89 | in verbose mode, iteration `k` produces exactly its raw result as message `k`, and no prompt is sent and nothing is spoken |
| Stages.RemovedItems | main.py:91 | in file-saving mode iteration `k` removes the path its item names; otherwise nothing is removed |
| Stages.RemovedTempFiles | main.py:91 | in file-saving mode, iteration `k` removes the file written for utterance `k`; otherwise nothing is removed |
| Stages.RemovedDistinct | main.py:91 | no file is removed twice |
| Stages.HeardInCaptureOrder | main.py:62-72 | across both queues, the `k`-th `"You said: "` line reports the transcript of the `k`-th captured utterance |
| Pipeline.VoiceLoop.constructor | main.py:104-109 | both queues start empty, nothing is captured yet, and the invariant holds |
| Pipeline.VoiceLoop.Capture | main.py:50-63 | one utterance appends exactly its item, the temp file for counter `i` or the waveform, and the counter moves on; the invariant is kept and nothing else changes |
| Pipeline.VoiceLoop.RecordAudio | main.py:48-63 | capturing a sequence of utterances appends one item per utterance in order, item `k` numbered `i + k`, and keeps the invariant |
| Pipeline.VoiceLoop.Transcribe | main.py:68-69 | transcription gets the language hint of the English-only mode |
| Pipeline.VoiceLoop.Respond | main.py:71-88 | the result queue gets the transcript line and then the reply line; the prompt sent is the composed one; the reply spoken is the same trimmed completion |
| Pipeline.VoiceLoop.Report | main.py:70-89 | the result queue, prompts and spoken replies grow by exactly what the iteration produces in the current mode |
| Pipeline.VoiceLoop.RemoveSaved | main.py:91 | in file-saving mode the item's path is removed; otherwise nothing is; this is what the iteration's log records as removed |
| Pipeline.VoiceLoop.TranscribeStep | main.py:66-91 | one iteration takes exactly the head of the audio queue and only appends to the result queue; the invariant is kept |
| Pipeline.VoiceLoop.TranscribeForever | main.py:65-91 | `n` iterations take the oldest `n` items, each once and in queue order; earlier results stay in place; the invariant is kept |
| Pipeline.VoiceLoop.Present | main.py:114-115 | the printing loop shows the oldest message and removes it; the invariant is kept |

## Left out

- Microphone capture and voice-activity detection (`sr.Recognizer`, `listen`): device I/O. An utterance is given as its samples.
- The int16-to-float normalisation of the waveform (division by 32768.0): floating-point arithmetic on a tensor. The waveform item carries the raw samples.
- WAV export with pydub and the file removal itself: filesystem I/O. Only the path bookkeeping is modelled, and the removed paths are logged.
- Whisper inference, the completion request and Azure speech synthesis: foreign model and network calls. They are abstract functions, with spoken replies logged. The reply is embedded in the synthesis markup verbatim, without escaping; the markup is not modelled.
- Threads, blocking queue semantics and the infinite loops: the loops become explicit steps on one object, a blocking `get` becomes a precondition that the queue is not empty, and a loop runs for a given number of iterations.
- The command-line parser, the `.env` configuration, the printed token counts and the "Emmy is listening!" lines (main.py:39, 47): configuration and console output outside the result queue. The settings form one `Config` value.
- Exceptions: an empty stop sequence makes `split` raise ValueError, so trimming, and the normal mode of the loop, require a non-empty stop sequence; verbose mode does not. Failures of the collaborators are not modelled; the program has no handler for them and its thread would end.
- `tempfile.mkdtemp`: the temporary directory is part of the configuration.

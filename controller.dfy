/**
 * The streaming session controller of `App()` (frontend/src/App.js): the analysis
 * queue, the session lifecycle over its refs and state, and the transcript intake,
 * as one object with one method per event. The browser's callbacks (socket events,
 * timers, settled promises) are the callers; what the browser reports (network
 * reachability, the socket's ready state, the outcome of a request) arrives as
 * parameters.
 */
module Controller {
  import opened Opt
  import Smoother
  import Intake
  import Analysis

  /** `connectionStatus`: the only three values the controller ever sets. */
  datatype Status = Disconnected | Connecting | Connected

  /** The user-facing `error` texts, one constructor per distinct message. */
  datatype Notice =
    | BackendDown          // "Backend server not connected." (during the grace period)
    | BackendStopped       // "... Analyzing stopped."
    | AnalysisTimedOut     // the 15-second kill switch fired
    | BackendError(detail: string)  // "Backend error: <message>"
    | AnalysisFailed       // "Analysis failed. Using defaults."
    | Offline              // no network when starting
    | LinkTimedOut         // the socket was not open after 8 seconds
    | MicStartFailed       // the recorder could not be created or started
    | SocketError          // the socket reported an error
    | Reconnecting         // an unsolicited close
    | LostConnection       // the monitor found the network or the socket down
    | RecordingFailed      // microphone access was refused

  /** What happens inside `ws.onopen` when the recorder is created and started. */
  datatype RecorderStart =
    | Started              // `new MediaRecorder` and `start(250)` succeed
    | ConstructFailed      // `new MediaRecorder(...)` throws
    | StartFailed          // the recorder is created, `start(250)` throws

  /** The queue is what is left of the transcript log once its first `consumed` lines are gone. */
  ghost predicate QueueIsTail(queue: seq<string>, transcript: seq<string>, consumed: nat) {
    consumed <= |transcript| && queue == transcript[consumed..]
  }

  /** Jobs started at strictly increasing log positions, all of them already consumed. */
  ghost predicate StartsInOrder(started: seq<nat>, consumed: nat) {
    (forall k :: 0 <= k < |started| ==> started[k] < consumed) &&
    (forall k, l :: 0 <= k < l < |started| ==> started[k] < started[l])
  }

  /** Consuming more of the log keeps the jobs started so far in order. */
  lemma StartsInOrderMonotone(started: seq<nat>, consumed: nat, more: nat)
    requires StartsInOrder(started, consumed) && consumed <= more
    ensures StartsInOrder(started, more)
  {
  }

  /** Appending a line to the log and to the queue keeps the queue the log's tail. */
  lemma QueueIsTailPush(queue: seq<string>, transcript: seq<string>, consumed: nat, line: string)
    requires QueueIsTail(queue, transcript, consumed)
    ensures QueueIsTail(queue + [line], transcript + [line], consumed)
  {
    assert (transcript + [line])[consumed..] == transcript[consumed..] + [line];
  }

  ghost predicate SignalsWellFormed(emotion: string, keywords: seq<string>) {
    emotion != "" && Smoother.NoDup(keywords) && |keywords| <= Smoother.MaxKeywords
  }


  class Session {
    // React state
    var isRecording: bool
    var transcript: seq<string>
    var emotion: string
    var intensity: real
    var keywords: seq<string>
    /** `isProcessingRef` and the `isProcessing` state, which are always set together. */
    var processing: bool
    var notice: Option<Notice>
    var status: Status

    // refs: whether `mediaRecorderRef`, `deepgramRef`, `streamRef` are non-null
    var recorder: bool
    var socket: bool
    var stream: bool
    /** Whether the 800 ms monitor interval (kept on the recorder) is running. */
    var monitor: bool
    var queue: seq<string>
    var lock: bool
    var manualStop: bool

    // asynchronous continuations that are still to come
    /** Start attempts waiting for `getUserMedia` to settle. */
    var pendingMedia: nat
    /** 8-second open timeouts armed and not yet fired or cleared. */
    var pendingOpenTimeouts: nat

    /** How many transcript lines have left the queue (taken by a drain or discarded). */
    ghost var consumed: nat
    /** The transcript positions of the jobs started so far, in the order they started. */
    ghost var started: seq<nat>

    /**
     * The invariant: a running monitor hangs on the current recorder; the queue is the
     * not yet consumed tail of the transcript log; jobs start in strictly increasing
     * log order (FIFO); the signal state is well formed.
     */
    ghost predicate Valid()
      reads this
    {
      (monitor ==> recorder) && LogValid() && SignalsWellFormed(emotion, keywords)
    }

    /** The queue and the job bookkeeping agree with the transcript log. */
    ghost predicate LogValid()
      reads this`queue, this`transcript, this`consumed, this`started, this`processing
    {
      QueueIsTail(queue, transcript, consumed) &&
      StartsInOrder(started, consumed) &&
      (processing ==> |started| > 0)
    }

    /** Every resource ref is null and no monitor runs. */
    predicate Released()
      reads this
    {
      !recorder && !socket && !stream && !monitor
    }

    /** The state `stopRecording` leaves behind. */
    predicate Stopped()
      reads this
    {
      manualStop && Released() && !isRecording && status == Disconnected
    }

    /** The initial state of the component's hooks and refs. */
    constructor ()
      ensures Valid() && Released()
      ensures !isRecording && transcript == [] && emotion == Smoother.DefaultEmotion
      ensures intensity == Smoother.DefaultIntensity && keywords == [] && !processing
      ensures notice == None && status == Disconnected && queue == [] && !lock && !manualStop
      ensures pendingMedia == 0 && pendingOpenTimeouts == 0
    {
      isRecording, transcript, emotion, intensity := false, [], Smoother.DefaultEmotion, Smoother.DefaultIntensity;
      keywords, processing, notice, status := [], false, None, Disconnected;
      recorder, socket, stream, monitor := false, false, false, false;
      queue, lock, manualStop := [], false, false;
      pendingMedia, pendingOpenTimeouts := 0, 0;
      consumed, started := 0, [];
    }

    // -------------------------------------------------------------------------
    // Teardown
    // -------------------------------------------------------------------------

    /**
     * `stopRecordingCleanup`: stop the recorder and clear its monitor, close the
     * socket, stop the tracks, and null the three refs. Every step is guarded, so
     * it never fails, and a second call changes nothing.
     */
    method Cleanup()
      requires Valid()
      modifies this`monitor, this`recorder, this`socket, this`stream
      ensures Valid() && Released()
      ensures old(Released()) ==> unchanged(this`monitor, this`recorder, this`socket, this`stream)
    {
      if recorder {
        monitor := false;
      }
      recorder := false;
      socket := false;
      stream := false;
    }

    /** `stopRecording`: the user's stop, also used by the socket's error handler. */
    method Stop()
      requires Valid()
      modifies this`manualStop, this`isRecording, this`status, this`monitor, this`recorder, this`socket, this`stream
      ensures Valid() && Stopped()
      ensures old(Stopped()) ==> unchanged(this`manualStop, this`isRecording, this`status, this`monitor, this`recorder, this`socket, this`stream)
    {
      manualStop := true;
      Cleanup();
      isRecording := false;
      status := Disconnected;
    }

    /** The unmount effect: the same teardown, without touching the displayed state. */
    method Unmount()
      requires Valid()
      modifies this`manualStop, this`monitor, this`recorder, this`socket, this`stream
      ensures Valid() && Released() && manualStop
    {
      manualStop := true;
      Cleanup();
    }

    // -------------------------------------------------------------------------
    // Starting a session
    // -------------------------------------------------------------------------

    /**
     * `startRecording` up to its first `await`; `online` is `navigator.onLine`.
     * The manual-stop flag is cleared even when the lock turns the call away.
     */
    method Start(online: bool)
      requires Valid()
      modifies this`manualStop, this`lock, this`notice, this`status, this`pendingMedia, this`monitor, this`recorder, this`socket, this`stream
      ensures Valid() && !manualStop
      ensures old(lock) ==>
                unchanged(this`recorder, this`socket, this`stream, this`monitor, this`lock, this`pendingMedia, this`status, this`notice)
      ensures !old(lock) && !online ==>
                !lock && notice == Some(Offline) &&
                unchanged(this`recorder, this`socket, this`stream, this`monitor, this`pendingMedia, this`status)
      ensures !old(lock) && online ==>
                lock && status == Connecting && Released() &&
                pendingMedia == old(pendingMedia) + 1 && unchanged(this`notice)
    {
      manualStop := false;
      if lock {
        return;
      }
      lock := true;
      if !online {
        notice := Some(Offline);
        lock := false;
        return;
      }
      status := Connecting;
      Cleanup();
      pendingMedia := pendingMedia + 1;
    }

    /**
     * The rest of `startRecording` once `getUserMedia` settles: on success the
     * stream is kept, the socket is created and its open timeout armed; on refusal
     * the outer `catch` reports it and releases the lock.
     */
    method MediaSettled(granted: bool)
      requires Valid() && pendingMedia > 0
      modifies this`pendingMedia, this`notice, this`status, this`lock, this`stream, this`socket, this`pendingOpenTimeouts
      ensures Valid() && pendingMedia == old(pendingMedia) - 1
      ensures granted ==>
                stream && socket && pendingOpenTimeouts == old(pendingOpenTimeouts) + 1 &&
                unchanged(this`notice, this`status, this`lock)
      ensures !granted ==>
                notice == Some(RecordingFailed) && status == Disconnected && !lock &&
                unchanged(this`stream, this`socket, this`pendingOpenTimeouts)
    {
      pendingMedia := pendingMedia - 1;
      if !granted {
        notice := Some(RecordingFailed);
        status := Disconnected;
        lock := false;
        return;
      }
      stream := true;
      socket := true;
      pendingOpenTimeouts := pendingOpenTimeouts + 1;
    }

    /**
     * The 8-second open timeout fires; `socketOpen` is whether its socket is OPEN.
     * It closes that socket but nulls no ref, keeps the stream, and leaves the lock
     * to the socket's close event.
     */
    method OpenTimeout(socketOpen: bool)
      requires Valid() && pendingOpenTimeouts > 0
      modifies this`pendingOpenTimeouts, this`notice, this`status
      ensures Valid() && pendingOpenTimeouts == old(pendingOpenTimeouts) - 1
      ensures socketOpen ==> unchanged(this`notice, this`status)
      ensures !socketOpen ==> notice == Some(LinkTimedOut) && status == Disconnected
    {
      pendingOpenTimeouts := pendingOpenTimeouts - 1;
      if !socketOpen {
        notice := Some(LinkTimedOut);
        status := Disconnected;
      }
    }

    /**
     * `ws.onopen`: clear the open timeout, create and start the recorder, then mark
     * the session connected and start the monitor. Whatever happens, the `finally`
     * releases the lock.
     */
    method WsOpen(r: RecorderStart)
      requires Valid() && pendingOpenTimeouts > 0
      modifies this`pendingOpenTimeouts, this`notice, this`status, this`recorder, this`isRecording, this`monitor, this`lock
      ensures Valid() && !lock && pendingOpenTimeouts == old(pendingOpenTimeouts) - 1
      ensures r.Started? ==>
                recorder && monitor && isRecording && status == Connected && unchanged(this`notice)
      ensures r.StartFailed? ==>
                recorder && notice == Some(MicStartFailed) && status == Disconnected &&
                unchanged(this`monitor, this`isRecording)
      ensures r.ConstructFailed? ==>
                notice == Some(MicStartFailed) && status == Disconnected &&
                unchanged(this`recorder, this`monitor, this`isRecording)
    {
      pendingOpenTimeouts := pendingOpenTimeouts - 1;
      if r.ConstructFailed? {
        notice := Some(MicStartFailed);
        status := Disconnected;
      } else {
        recorder := true;
        if r.StartFailed? {
          notice := Some(MicStartFailed);
          status := Disconnected;
        } else {
          isRecording := true;
          status := Connected;
          monitor := true;
        }
      }
      lock := false;
    }

    /** `ws.onerror`: report the error, then the user's stop. */
    method WsError()
      requires Valid()
      modifies this`notice, this`manualStop, this`isRecording, this`status, this`monitor, this`recorder, this`socket, this`stream
      ensures Valid() && Stopped() && notice == Some(SocketError)
    {
      notice := Some(SocketError);
      Stop();
    }

    /** `ws.onclose`: announce reconnecting unless the stop was intended; always release the lock. */
    method WsClose()
      requires Valid()
      modifies this`notice, this`lock
      ensures Valid() && !lock
      ensures old(manualStop) ==> unchanged(this`notice)
      ensures !old(manualStop) ==> notice == Some(Reconnecting)
    {
      if !manualStop {
        notice := Some(Reconnecting);
      }
      lock := false;
    }

    /**
     * One tick of an 800 ms monitor; `online` is `navigator.onLine`, `socketOpen`
     * whether that monitor's own socket is OPEN. A failing tick is a full stop, but
     * the analysis queue is left as it is. The tick may come from an interval whose
     * recorder ref a later attempt overwrote, which no cleanup can clear, so it is
     * not required that the current monitor runs.
     */
    method MonitorTick(online: bool, socketOpen: bool)
      requires Valid()
      modifies this`manualStop, this`isRecording, this`status, this`notice, this`monitor, this`recorder, this`socket, this`stream
      ensures Valid()
      ensures online && socketOpen ==> unchanged(this`manualStop, this`isRecording, this`status, this`notice, this`monitor, this`recorder, this`socket, this`stream)
      ensures !(online && socketOpen) ==>
                Stopped() && notice == Some(LostConnection)
    {
      if !online || !socketOpen {
        manualStop := true;
        monitor := false;
        Cleanup();
        isRecording := false;
        status := Disconnected;
        notice := Some(LostConnection);
      }
    }

    // -------------------------------------------------------------------------
    // The analysis queue
    // -------------------------------------------------------------------------

    /**
     * `processQueue` up to its first `await`: a no-op while a job is in flight or
     * the queue is empty; otherwise the head is taken and becomes the job in flight.
     * The job is always the oldest transcript line not yet consumed.
     */
    method DrainBegin() returns (job: Option<string>)
      requires Valid()
      modifies this`processing, this`queue, this`started, this`consumed
      ensures Valid()
      ensures old(processing) || old(queue) == [] ==> job == None && unchanged(this`processing, this`queue, this`started, this`consumed)
      ensures !old(processing) && old(queue) != [] ==>
                job == Some(old(queue[0])) && job.value == old(transcript[consumed]) &&
                processing && queue == old(queue[1..]) &&
                consumed == old(consumed) + 1 && started == old(started) + [old(consumed)]
    {
      if processing || queue == [] {
        return None;
      }
      processing := true;
      job := Some(queue[0]);
      queue := queue[1..];
      started := started + [consumed];
      consumed := consumed + 1;
    }

    /** The health probe failed: the first message, shown during the 10-second grace period. */
    method ProbeFailed()
      requires Valid() && processing
      modifies this`notice
      ensures Valid() && notice == Some(BackendDown)
    {
      notice := Some(BackendDown);
    }

    /** The full stop of the two fatal branches: the teardown, and the queue emptied. */
    method HardStop(n: Notice)
      requires Valid()
      modifies this`notice, this`queue, this`consumed, this`processing, this`manualStop, this`isRecording, this`status, this`monitor, this`recorder, this`socket, this`stream
      ensures Valid() && Stopped() && queue == [] && !processing && notice == Some(n)
    {
      StartsInOrderMonotone(started, consumed, |transcript|);
      notice := Some(n);
      queue := [];
      consumed := |transcript|;
      processing := false;
      Stop();
    }

    /**
     * `processQueue` from its first `await` to the end of its `finally`, for the job
     * in flight. `rearm` is whether `setTimeout(processQueue, 500)` was scheduled:
     * exactly when items are still queued, which is never after a fatal outcome.
     */
    method DrainEnd(outcome: Analysis.Outcome) returns (rearm: bool)
      requires Valid() && processing
      modifies this`notice, this`queue, this`consumed, this`processing, this`emotion, this`intensity, this`keywords, this`manualStop, this`isRecording, this`status, this`monitor, this`recorder, this`socket, this`stream
      ensures Valid() && !processing
      ensures rearm <==> queue != []
      // fatal: a full stop that discards the queue
      ensures Analysis.IsFatal(outcome) ==> Stopped() && queue == [] && unchanged(this`emotion, this`intensity, this`keywords)
      ensures outcome.HealthFailed? ==> notice == Some(BackendStopped)
      ensures outcome.Threw? && Analysis.Classify(outcome.err) == Analysis.Timeout ==>
                notice == Some(AnalysisTimedOut)
      // recoverable: the session and the queue are left as they are
      ensures !Analysis.IsFatal(outcome) ==>
                unchanged(this`recorder, this`socket, this`stream, this`monitor, this`queue, this`consumed, this`isRecording, this`status, this`manualStop)
      ensures outcome.Threw? && Analysis.Classify(outcome.err) == Analysis.HttpFailure ==>
                notice == Some(BackendError(outcome.err.message)) && unchanged(this`emotion, this`intensity, this`keywords)
      ensures outcome.Threw? && Analysis.Classify(outcome.err) == Analysis.OtherFailure ==>
                notice == Some(AnalysisFailed) && emotion == Smoother.DefaultEmotion &&
                intensity == Smoother.DefaultIntensity && unchanged(this`keywords)
      // success: the reply is folded into the signal state
      ensures outcome.Replied? ==>
                notice == None && emotion == Smoother.EmotionOf(outcome.body) &&
                intensity == Smoother.Ema(old(intensity), outcome.body) &&
                keywords == Smoother.ApplyKeywords(old(keywords), outcome.body.keywords)
      ensures outcome.Replied? && Smoother.InUnit(old(intensity)) &&
              (outcome.body.intensity.None? || Smoother.InUnit(outcome.body.intensity.value)) ==>
                Smoother.InUnit(intensity)
    {
      match outcome {
        case HealthFailed =>
          HardStop(BackendStopped);
        case Threw(e) =>
          var f := Analysis.Classify(e);
          if f == Analysis.Timeout {
            HardStop(AnalysisTimedOut);
          } else if f == Analysis.HttpFailure {
            notice := Some(BackendError(e.message));
          } else {
            notice := Some(AnalysisFailed);
            emotion := Smoother.DefaultEmotion;
            intensity := Smoother.DefaultIntensity;
          }
        case Replied(body) =>
          emotion := Smoother.EmotionOf(body);
          intensity := Smoother.Ema(intensity, body);
          keywords := Smoother.ApplyKeywords(keywords, body.keywords);
          notice := None;
      }
      // finally
      processing := false;
      rearm := queue != [];
    }

    // -------------------------------------------------------------------------
    // Transcript intake
    // -------------------------------------------------------------------------

    /** `setTranscript(prev => [...prev, text])` and `processingQueueRef.current.push(text)`. */
    method Enqueue(line: string)
      requires Valid()
      modifies this`transcript, this`queue
      ensures Valid()
      ensures transcript == old(transcript) + [line] && queue == old(queue) + [line]
    {
      QueueIsTailPush(queue, transcript, consumed, line);
      transcript := transcript + [line];
      queue := queue + [line];
    }

    /**
     * `ws.onmessage`: a message whose transcript is non-blank after trimming is
     * appended, untrimmed, to the transcript log and to the queue, and the queue is
     * drained; any other message changes nothing.
     */
    method WsMessage(raw: Option<Intake.Message>) returns (job: Option<string>)
      requires Valid()
      modifies this`transcript, this`queue, this`processing, this`started, this`consumed
      ensures Valid()
      ensures !Intake.Accepts(Intake.TranscriptOf(raw)) ==> job == None && unchanged(this`transcript, this`queue, this`processing, this`started, this`consumed)
      ensures Intake.Accepts(Intake.TranscriptOf(raw)) ==>
                transcript == old(transcript) + [Intake.TranscriptOf(raw).value]
      // a job is in flight: the line waits at the back of the queue
      ensures Intake.Accepts(Intake.TranscriptOf(raw)) && old(processing) ==>
                job == None && queue == old(queue) + [Intake.TranscriptOf(raw).value] &&
                unchanged(this`processing, this`consumed, this`started)
      // none is: the oldest unconsumed line starts at once
      ensures Intake.Accepts(Intake.TranscriptOf(raw)) && !old(processing) ==>
                processing && consumed == old(consumed) + 1 && started == old(started) + [old(consumed)] &&
                job == Some(transcript[old(consumed)]) &&
                queue == (old(queue) + [Intake.TranscriptOf(raw).value])[1..]
    {
      var t := Intake.TranscriptOf(raw);
      if !Intake.Accepts(t) {
        return None;
      }
      Enqueue(t.value);
      job := DrainBegin();
    }
  }

  /** A fresh session that is started online, granted the microphone and opened. */
  method Recording() returns (s: Session)
    ensures fresh(s) && s.Valid() && s.isRecording && !s.lock && s.pendingMedia == 0
  {
    s := new Session();
    s.Start(true);
    s.MediaSettled(true);
    s.WsOpen(Started);
  }

  /**
   * Stopping and pressing start again before the old socket's close event arrives.
   * `Stop` closes the socket; the new attempt clears the manual-stop flag, so when
   * that close event comes it announces reconnecting and releases the lock while
   * the new attempt still waits for the microphone. A further press then starts a
   * second concurrent attempt.
   */
  method RestartBeforeOldClose() returns (s: Session)
    ensures s.Valid() && !s.isRecording && s.status == Connecting && s.Released()
    ensures s.notice == Some(Reconnecting) && s.lock && s.pendingMedia == 2
  {
    s := Recording();
    s.Stop();
    s.Start(true);
    s.WsClose();
    s.Start(true);
  }
}

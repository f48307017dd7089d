/** The live voice-call session as the component runs it: the refs and the
    status its handlers update in place, one method per handler. Each method
    is proved to do what the matching function of CallModel says, and to keep
    CallModel.Valid. */
module AudioInterface {
  import opened Wrappers
  import Pcm
  import CallModel

  class CallSession {
    var status: CallModel.Status
    var nextStart: real
    var active: set<nat>
    var started: seq<CallModel.Slot>
    var mounted: bool
    var capturing: bool

    function State(): CallModel.Session
      reads this
    {
      CallModel.Session(status, nextStart, active, started, mounted, capturing)
    }

    ghost predicate Valid()
      reads this
    {
      CallModel.Valid(State())
    }

    /** Mounting the component: connecting, nothing scheduled, mounted. */
    constructor ()
      ensures Valid()
      ensures State() == CallModel.Initial()
    {
      status := CallModel.Connecting;
      nextStart := 0.0;
      active := {};
      started := [];
      mounted := true;
      capturing := false;
    }

    method OnOpen()
      requires Valid()
      modifies this
      ensures Valid()
      ensures State() == CallModel.OnOpen(old(State()))
    {
      if !mounted {
        return;
      }
      status := CallModel.Listening;
      capturing := true;
    }

    /** One run of the microphone processor: the frame is always encoded, and
        handed to the session only while mounted and not muted. */
    method OnAudioProcess(frame: array<real>, muted: bool) returns (sent: Option<Pcm.Blob>)
      ensures sent.Some? <==> CallModel.SendsFrame(State(), muted)
      ensures sent.Some? ==> sent.value.mimeType == Pcm.PcmMimeType && |sent.value.data| == 2 * frame.Length
      ensures sent.Some? ==> sent.value.data == Pcm.BinaryString(Pcm.EncodeLE(Pcm.Quantized(frame[..])))
      ensures sent.Some? ==> Pcm.DecodeLE(Pcm.DecodeBinary(sent.value.data)) == Pcm.Quantized(frame[..])
    {
      var pcmBlob := Pcm.CreateBlob(frame);
      if capturing && mounted && !muted {
        sent := Some(pcmBlob);
      } else {
        sent := None;
      }
    }

    /** `onmessage`. Returns the sources it calls `stop()` on. */
    method OnMessage(message: CallModel.Message, now: real) returns (stopped: set<nat>)
      requires Valid()
      modifies this
      ensures Valid()
      ensures State() == CallModel.OnMessage(old(State()), message, now)
      ensures stopped == CallModel.Stopped(old(State()), message, now)
    {
      ghost var s := State();
      CallModel.StepPreservesValid(s, CallModel.Received(message, now));
      stopped := {};
      if !mounted {
        return;
      }
      if message.audio.Some? && message.audio.value != [] {
        status := CallModel.Speaking;
        nextStart := CallModel.Max(nextStart, now);
        var bytes := Pcm.Decode(message.audio.value);
        var decoded := Pcm.DecodeAudioData(bytes, CallModel.OutputSampleRate, 1);
        if decoded.Failure? {
          // the awaited decode throws: the rest of the handler does not run
          return;
        }
        var audioBuffer := decoded.value;
        var duration := audioBuffer.Length1 as real / CallModel.OutputSampleRate as real;
        started := started + [CallModel.Slot(now, nextStart, duration)];
        active := active + {|started| - 1};
        nextStart := nextStart + duration;
      }
      assert State() == CallModel.AfterAudio(s, message, now);
      if message.interrupted {
        var remaining := active;
        while remaining != {}
          invariant stopped + remaining == active
          invariant stopped !! remaining
          decreases remaining
        {
          var source :| source in remaining;
          stopped := stopped + {source};
          remaining := remaining - {source};
        }
        active := {};
        nextStart := 0.0;
        status := CallModel.Listening;
      }
    }

    /** A source's `ended` listener. */
    method OnEnded(id: nat)
      requires Valid()
      modifies this
      ensures Valid()
      ensures State() == CallModel.OnEnded(old(State()), id)
    {
      active := active - {id};
      if |active| == 0 {
        status := CallModel.Listening;
      }
    }

    method OnClose()
      requires Valid()
      modifies this
      ensures Valid()
      ensures State() == CallModel.OnClose(old(State()))
    {
      if mounted {
        status := CallModel.Connecting;
      }
    }

    method OnError()
      requires Valid()
      modifies this
      ensures Valid()
      ensures State() == CallModel.OnError(old(State()))
    {
      if mounted {
        status := CallModel.Error;
      }
    }

    /** The `catch` around the session setup. */
    method OnSetupFailure()
      requires Valid()
      modifies this
      ensures Valid()
      ensures State() == CallModel.OnSetupFailure(old(State()))
    {
      status := CallModel.Error;
    }

    /** The effect's cleanup. */
    method Unmount()
      requires Valid()
      modifies this
      ensures Valid()
      ensures State() == CallModel.Unmount(old(State()))
    {
      mounted := false;
      capturing := false;
    }
  }
}

/**
 The chat client object: its `connected_` flag and its `writeMsgs_` queue,
 updated in place by `deliver` and by the completion handlers of the
 asynchronous connect, handshake, read and write.

 The transport is abstracted away: dispatching an operation is recorded in
 ghost state, and its completion is a separate method call carrying only
 whether it succeeded. Every method is proved to move the object's abstract
 state exactly as `ClientSpec.Step` says, so the trace lemmas of `ClientSpec`
 apply to every sequence of calls.
 */
module ChatClient {
  import opened ChatMessages
  import opened ClientSpec

  datatype Option<T> = None | Some(value: T)

  /** Each byte string of `wire` is the encoding of the message at the same position of `sent`. */
  ghost predicate Encodes(serialize: ChatMessage -> Bytes, wire: seq<Bytes>, sent: seq<ChatMessage>)
  {
    |wire| == |sent| && forall i :: 0 <= i < |sent| ==> wire[i] == serialize(sent[i])
  }

  lemma EncodesAppend(serialize: ChatMessage -> Bytes, wire: seq<Bytes>, sent: seq<ChatMessage>, m: ChatMessage)
    requires Encodes(serialize, wire, sent)
    ensures Encodes(serialize, wire + [serialize(m)], sent + [m])
  {
  }

  class Client {
    /** The protocol-buffer serialiser and parser the messages go through. */
    const codec: Codec
    const nickname: string

    var connected: bool
    var writeMsgs: seq<ChatMessage>

    /** Which continuation of connect, handshake and read is outstanding. */
    ghost var phase: Phase
    ghost var writePending: bool
    ghost var readOutstanding: bool
    /** The messages whose write succeeded, in order. */
    ghost var written: seq<ChatMessage>
    /** Every message whose encoding was passed to the transport, in dispatch order. */
    ghost var sent: seq<ChatMessage>
    /** The byte strings passed to the transport, in dispatch order. */
    ghost var wire: seq<Bytes>

    /** The read buffer (`buffer_`), and the frames read into it so far. */
    var buffer: Bytes
    ghost var frames: seq<Bytes>

    ghost function Abstract(): State
      reads this
    {
      State(phase, connected, writeMsgs, writePending, readOutstanding, written, sent)
    }

    ghost predicate Valid()
      reads this
    {
      Inv(Abstract()) && Encodes(codec.serialize, wire, sent) && buffer == Accumulated(frames)
    }

    /** Construction stores the nickname and dispatches the connect. */
    constructor (codec: Codec, nickname: string)
      ensures Valid() && Abstract() == Init() && wire == [] && frames == []
      ensures this.codec == codec && this.nickname == nickname
    {
      this.codec := codec;
      this.nickname := nickname;
      connected := false;
      writeMsgs := [];
      phase := Connecting;
      writePending, readOutstanding := false, false;
      written, sent, wire := [], [], [];
      buffer, frames := [], [];
    }

    /** `connected_` is true exactly once the handshake has succeeded. */
    function IsConnected(): (r: bool)
      reads this
      requires Valid()
      ensures r <==> phase == Connected
    {
      connected
    }

    /**
     Appends a copy of the message at the back of the queue and, when the
     queue was empty before, dispatches its encoding; otherwise a write is
     taken to be in progress and nothing is dispatched.
     */
    method Deliver(chatMessage: ChatMessageWrapper)
      requires Valid()
      modifies this
      ensures Valid()
      ensures Abstract() == Step(old(Abstract()), Event.Deliver(chatMessage.message))
      ensures writeMsgs == old(writeMsgs) + [chatMessage.message]
      ensures wire == if old(writeMsgs) == [] then old(wire) + [codec.serialize(chatMessage.message)] else old(wire)
      ensures connected == old(connected)
      ensures buffer == old(buffer) && frames == old(frames)
    {
      var m := chatMessage.message;
      DeliverPreservesInv(Abstract(), m);
      var writeInProgress := writeMsgs != [];
      writeMsgs := writeMsgs + [m];
      if !writeInProgress {
        Write();
        EncodesAppend(codec.serialize, old(wire), old(sent), m);
      }
    }

    /** Encodes a copy of the front message and dispatches the write. */
    method Write()
      requires writeMsgs != []
      modifies this`writePending, this`sent, this`wire
      ensures writePending
      ensures sent == old(sent) + [writeMsgs[0]]
      ensures wire == old(wire) + [codec.serialize(writeMsgs[0])]
    {
      var chatMessage := new ChatMessageWrapper.Copy(writeMsgs[0]);
      var sendBytes := chatMessage.Encode(codec.serialize);
      wire := wire + [sendBytes];
      sent := sent + [writeMsgs[0]];
      writePending := true;
    }

    /** Completion of the write: success pops the front, failure keeps it; nothing is dispatched. */
    method OnWriteDone(ok: bool)
      requires Valid() && writePending
      modifies this
      ensures Valid()
      ensures Abstract() == Step(old(Abstract()), WriteDone(ok))
      ensures writeMsgs == if ok then old(writeMsgs)[1..] else old(writeMsgs)
      ensures !writePending && wire == old(wire) && connected == old(connected)
      ensures buffer == old(buffer) && frames == old(frames)
    {
      ghost var after := Step(Abstract(), WriteDone(ok));
      WriteDonePreservesInv(Abstract(), ok);
      if ok {
        written := written + [writeMsgs[0]];
        writeMsgs := writeMsgs[1..];
      }
      writePending := false;
      assert Abstract() == after;
    }

    /** Dispatches one read. */
    method Read()
      modifies this`readOutstanding
      ensures readOutstanding
    {
      readOutstanding := true;
    }

    /**
     Completion of a read. On success the frame is appended to the read
     buffer, whose whole contents (every frame read so far, since nothing
     consumes it) are decoded into a fresh message, which is returned (the
     client only logs its text), and the next read is dispatched whatever
     the bytes held; on failure the loop ends. Neither branch touches
     `connected_` or the queue.
     */
    method OnReadDone(ok: bool, frame: Bytes) returns (received: Option<ChatMessage>)
      requires Valid() && readOutstanding
      modifies this
      ensures Valid()
      ensures Abstract() == Step(old(Abstract()), ReadDone(ok))
      ensures readOutstanding == ok
      ensures frames == if ok then old(frames) + [frame] else old(frames)
      ensures buffer == if ok then old(buffer) + frame else old(buffer)
      ensures received == if ok then Some(codec.parse(Accumulated(frames))) else None
      ensures connected == old(connected) && writeMsgs == old(writeMsgs) && wire == old(wire)
    {
      ghost var before := Abstract();
      if ok {
        AccumulatedSnoc(frames, frame);
        buffer := buffer + frame;
        frames := frames + [frame];
        var chatMsg := new ChatMessageWrapper.Empty();
        chatMsg.Decode(buffer, codec.parse);
        received := Some(chatMsg.message);
        Read();
      } else {
        readOutstanding := false;
        received := None;
      }
      assert Abstract() == Step(before, ReadDone(ok));
    }

    /** Completion of the connect: success dispatches the handshake, failure ends the chain. */
    method OnConnect(ok: bool)
      requires Valid() && phase == Connecting
      modifies this
      ensures Valid()
      ensures Abstract() == Step(old(Abstract()), ConnectDone(ok))
      ensures phase == if ok then Handshaking else Failed
      ensures !connected && !readOutstanding && wire == old(wire)
      ensures buffer == old(buffer) && frames == old(frames)
    {
      if ok {
        Handshake();
      } else {
        phase := Failed;
      }
    }

    /** Dispatches the handshake. */
    method Handshake()
      requires phase == Connecting
      modifies this`phase
      ensures phase == Handshaking
    {
      phase := Handshaking;
    }

    /**
     Completion of the handshake: success sets `connected_` and dispatches
     exactly one read; failure leaves `connected_` false and starts nothing.
     */
    method OnHandshake(ok: bool)
      requires Valid() && phase == Handshaking
      modifies this
      ensures Valid()
      ensures Abstract() == Step(old(Abstract()), HandshakeDone(ok))
      ensures connected == ok && readOutstanding == ok
      ensures writeMsgs == old(writeMsgs) && wire == old(wire)
      ensures buffer == old(buffer) && frames == old(frames)
    {
      ghost var before := Abstract();
      if ok {
        connected := true;
        phase := Connected;
        Read();
      } else {
        phase := Failed;
      }
      assert Abstract() == Step(before, HandshakeDone(ok));
      StepPreservesInv(before, HandshakeDone(ok));
    }
  }
}

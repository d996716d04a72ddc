/** The TcpConnection object of tcpConnection.cpp, method by method. */
module TcpConnectionObject {
  import opened Buffers
  import opened ConnectionStates
  import opened TcpConnections
  import C = TcpCalls

  class TcpConnection {
    var state: State
    var reading: bool
    var writing: bool
    const inputBuffer: Buffer
    const outputBuffer: Buffer
    ghost var wire: string
    ghost var accepted: string
    ghost var shuts: nat
    ghost var closes: nat
    // the loop's queue, and what other threads are doing
    ghost var calls: multiset<Call>
    ghost var queue: seq<C.Functor>
    ghost var texts: seq<string>
    ghost var ran: seq<nat>
    ghost var removed: bool
    ghost var destroyed: bool
    ghost var aborted: bool

    ghost predicate Valid()
      reads this, inputBuffer, outputBuffer
    {
      && inputBuffer.Valid() && outputBuffer.Valid()
      && inputBuffer != outputBuffer && inputBuffer.data != outputBuffer.data
    }

    ghost function View(): Conn
      reads this, inputBuffer, outputBuffer, outputBuffer.data
      requires Valid()
    {
      Conn(state, reading, writing, outputBuffer.Contents(), wire, accepted, shuts, closes)
    }

    ghost function Whole(): C.Line
      reads this, inputBuffer, outputBuffer, outputBuffer.data
      requires Valid()
    {
      C.Line(View(), calls, queue, texts, ran, removed, destroyed, aborted)
    }

    constructor ()
      ensures Valid() && Whole() == C.NEW_LINE && inputBuffer.Contents() == ""
      ensures fresh(inputBuffer) && fresh(inputBuffer.data) && fresh(outputBuffer) && fresh(outputBuffer.data)
    {
      state, reading, writing := Connecting, false, false;
      inputBuffer := new Buffer();
      outputBuffer := new Buffer();
      wire, accepted, shuts, closes := "", "", 0, 0;
      calls, queue, texts, ran := multiset{}, [], [], [];
      removed, destroyed, aborted := false, false, false;
    }

    method ConnectEstablished()
      requires Valid() && state == Connecting
      modifies this
      ensures Valid() && Whole() == old(Whole()).(conn := Establish(old(View())))
    {
      state := Connected;
      reading := true;
    }

    method ConnectDestroyed()
      requires Valid() && Open(state)
      modifies this
      ensures Valid() && Whole() == old(Whole()).(conn := Destroy(old(View())))
    {
      state := Disconnected;
      reading, writing := false, false;
    }

    method HandleClose()
      requires Valid() && Open(state)
      modifies this
      ensures Valid() && Whole() == old(Whole()).(conn := AfterHandleClose(old(View())))
    {
      reading, writing := false, false;
      closes := closes + 1;
    }

    /** `taken` is the result of write(); it is asked for only when nothing is queued. */
    method SendInLoop(msg: string, taken: int)
      requires Valid() && taken <= |msg|
      modifies this`wire, this`accepted, this`writing, outputBuffer, outputBuffer.data
      ensures Valid() && (outputBuffer.data == old(outputBuffer.data) || fresh(outputBuffer.data))
      ensures View() == AfterSendInLoop(old(View()), msg, taken)
    {
      var nWrote := 0;
      var queued := outputBuffer.ReadableBytes();
      if !writing && queued == 0 {
        nWrote := taken;
        if nWrote < 0 {
          nWrote := 0;
        }
      }
      wire := wire + msg[..nWrote];
      accepted := accepted + msg;
      if nWrote < |msg| {
        outputBuffer.Append(msg[nWrote..]);
        if !writing {
          writing := true;
        }
      }
    }

    /** `onLoop` is isInLoopThread(). */
    method Send(msg: string, taken: int, onLoop: bool)
      requires Valid() && taken <= |msg|
      modifies this, outputBuffer, outputBuffer.data
      ensures Valid() && (outputBuffer.data == old(outputBuffer.data) || fresh(outputBuffer.data))
      ensures Whole() == if onLoop then C.RunLocal(old(Whole()), EvSend(msg, taken)) else C.ForeignSend(old(Whole()), msg)
    {
      if state == Connected {
        if onLoop {
          SendInLoop(msg, taken);
          ran, texts := ran + [|texts|], texts + [msg];
        } else {
          QueueSend(msg);
        }
      }
    }

    /** queueInloop of sendInloop. */
    method QueueSend(msg: string)
      requires Valid() && state == Connected
      modifies this`queue, this`texts
      ensures Valid() && Whole() == C.ForeignSend(old(Whole()), msg)
    {
      C.ForeignSendForm(Whole(), msg);
      queue, texts := queue + [C.SendFunctor(msg, |texts|)], texts + [msg];
    }

    /** setState, and queueInloop of shutdownInloop. */
    method QueueShutdown()
      requires Valid() && state == Connected
      modifies this`queue, this`state
      ensures Valid() && Whole() == C.ForeignShutdown(old(Whole()))
    {
      C.ForeignShutdownForm(Whole());
      state := Disconnecting;
      queue := queue + [C.ShutdownFunctor];
    }

    method ShutdownInLoop()
      requires Valid()
      modifies this`shuts
      ensures Valid() && View() == AfterShutdownInLoop(old(View()))
    {
      if !writing {
        shuts := shuts + 1;
      }
    }

    method Shutdown(onLoop: bool)
      requires Valid()
      modifies this`shuts, this`state, this`queue
      ensures Valid()
      ensures Whole() == if onLoop then C.RunLocal(old(Whole()), EvShutdown) else C.ForeignShutdown(old(Whole()))
    {
      if state == Connected {
        if onLoop {
          state := Disconnecting;
          ShutdownInLoop();
        } else {
          QueueShutdown();
        }
      }
    }

    /** The loop runs the sendInloop bound in the first functor. */
    method RunSend(msg: string, taken: int)
      requires Valid() && C.CanRunFirst(Whole(), taken) && queue[0].SendFunctor? && queue[0].msg == msg
      modifies this, outputBuffer, outputBuffer.data
      ensures Valid() && (outputBuffer.data == old(outputBuffer.data) || fresh(outputBuffer.data))
      ensures Whole() == C.RunFirst(old(Whole()), taken)
    {
      ghost var was := writing;
      SendInLoop(msg, taken);
      ran, queue := ran + [queue[0].ticket], queue[1..];
      aborted := destroyed && writing && !was;
    }

    method RunShutdown()
      requires Valid() && queue != [] && queue[0].ShutdownFunctor?
      modifies this`shuts, this`queue
      ensures Valid() && Whole() == C.RunFirst(old(Whole()), 0)
    {
      ShutdownInLoop();
      queue := queue[1..];
    }

    /** The loop runs the connectDestory queued by the server. */
    method RunDestroy()
      requires Valid() && Open(state) && queue != [] && queue[0].DestroyFunctor?
      modifies this
      ensures Valid() && Whole() == C.RunFirst(old(Whole()), 0)
    {
      ConnectDestroyed();
      queue, destroyed := queue[1..], true;
    }

    method HandleWrite(taken: int)
      requires Valid() && taken <= |outputBuffer.Contents()|
      modifies this`wire, this`writing, this`shuts, outputBuffer`readIndex
      ensures Valid() && View() == AfterHandleWrite(old(View()), taken)
    {
      if writing {
        if taken > 0 {
          wire := wire + outputBuffer.Contents()[..taken];
          outputBuffer.Retrieve(taken);
          var left := outputBuffer.ReadableBytes();
          if left == 0 {
            writing := false;
            if state == Disconnecting {
              ShutdownInLoop();
            }
          }
        }
      }
    }
  }
}

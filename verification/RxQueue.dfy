/** The receive queue of one virtual channel. */
module RxQueue {
  import opened Common
  import opened Session

  class Vchan {
    var rxList: seq<Bytes>
    var otherendClosed: bool

    constructor ()
      ensures rxList == [] && !otherendClosed
    {
      rxList, otherendClosed := [], false;
    }

    /** `hab_msg_queue` */
    method Queue(message: Bytes)
      modifies this`rxList
      ensures rxList == old(rxList) + [message]
    {
      rxList := rxList + [message];
    }

    /** `hab_msg_dequeue` from the lock on; `wait` is how waiting for a message or a close ended. */
    method Take(room: nat, wait: Wait) returns (ret: Code, message: Option<Bytes>, rsize: nat)
      modifies this`rxList
      ensures var d := Dequeue(old(rxList), otherendClosed, room, wait);
        ret == d.ret && rsize == d.rsize && rxList == d.rx && message == if d.ret == Ok then Some(d.msg) else None
    {
      message := None;
      if rxList != [] {
        rsize := |rxList[0]|;
        if rsize <= room {
          ret, message, rxList := Ok, Some(rxList[0]), rxList[1..];
        } else {
          ret := Overflow;
        }
      } else {
        rsize := 0;
        if otherendClosed { ret := NoDevice; }
        else if wait == Interrupted { ret := Intr; }
        else if wait == TimedOut { ret := Timeout; }
        else { ret := Again; }
      }
    }
  }

  /** A caller whose buffer was too small comes back with the size it was told and gets the same message. */
  lemma RetryAfterOverflow(rx: seq<Bytes>, otherClosed: bool, room: nat, wait: Wait)
    requires Dequeue(rx, otherClosed, room, wait).ret == Overflow
    ensures var d := Dequeue(rx, otherClosed, room, wait);
      && d.rx == rx && d.rsize > room
      && Dequeue(d.rx, otherClosed, d.rsize, wait).ret == Ok && Dequeue(d.rx, otherClosed, d.rsize, wait).msg == rx[0]
      && forall less: nat :: less < d.rsize ==> Dequeue(d.rx, otherClosed, less, wait).ret == Overflow
  {
  }
}

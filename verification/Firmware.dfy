/** The firmware on the heap: the handle of `usbd_gs_can.c` with its rings, and the critical sections and
    callbacks the main loop and the USB interrupt run on it. Each is proved to do to the heap what its
    step does to the state of `Bridge`. The functions made of them are in `MainLoop`.
  */
module Firmware {
  import opened GsUsb
  import opened Wrappers
  import opened Bridge
  import opened BridgeRuns
  import opened LinuxList
  import opened FrameLists

  // The rings of a handle, by position.

  const POOL: nat := 0
  const TO_HOST: nat := 1

  function FromHost(ch: nat): nat { 2 + ch }

  ghost function Queues(c: Core): seq<seq<nat>> {
    [c.pool, c.toHost] + c.fromHost
  }

  /** `struct USBD_GS_CAN_HandleTypeDef`, and the state of its two bulk endpoints. */
  class Handle {
    const cfg: Config
    const lists: FrameLists
    const msgbuf: array<HostFrame>     // msgbuf[i].frame
    var regEsrOld: seq<bv32>           // channels[i].reg_esr_old
    var fromHostBuf: ListHead?
    var toHostBuf: ListHead?
    var suspended: bool                // is_usb_suspend_cb
    var configured: bool
    var outArmed: bool
    var inFlight: bool

    constructor (cfg: Config, lists: FrameLists, msgbuf: array<HostFrame>)
      ensures this.cfg == cfg && this.lists == lists && this.msgbuf == msgbuf
      ensures regEsrOld == seq(cfg.channels, _ => 0)
      ensures fromHostBuf == null && toHostBuf == null && !suspended && !configured && !outArmed && !inFlight
    {
      this.cfg, this.lists, this.msgbuf, regEsrOld := cfg, lists, msgbuf, seq(cfg.channels, _ => 0);
      fromHostBuf, toHostBuf, suspended, configured, outArmed, inFlight := null, null, false, false, false, false;
    }

    // ---------- the heap and the state it stands for ----------

    /** A pointer to a buffer, or null. */
    ghost predicate Points(p: ListHead?, o: Option<nat>) {
      match o
      case None => p == null
      case Some(x) => x < |lists.nodes| && p == lists.nodes[x] && lists.nodes[x].entry == x
    }

    /** The fields, apart from the rings. */
    ghost predicate Fields(c: Core)
      reads this, msgbuf
    {
      && |lists.nodes| == cfg.buffers && |lists.heads| == 2 + cfg.channels
      && msgbuf[..] == c.store && regEsrOld == c.errOld && |c.store| == cfg.buffers
      && Points(fromHostBuf, c.fromHostBuf) && Points(toHostBuf, c.toHostBuf)
      && suspended == c.suspended && configured == c.configured && outArmed == c.outArmed && inFlight == c.inFlight
    }

    ghost predicate Represents(c: Core)
      reads this, lists.heads, lists.nodes, msgbuf
    {
      Fields(c) && lists.Holds(Queues(c))
    }

    ghost predicate Valid(r: Run)
      reads this, lists.heads, lists.nodes, msgbuf
    {
      WellFormed(cfg, r.core) && Represents(r.core)
    }

    // ---------- sections of the main loop ----------

    /** Under `disable_irq` in `CAN_SendFrame`. */
    method TakeFromHost(ch: nat, ghost c: Core) returns (frameObject: ListHead?)
      requires Represents(c) && ch < cfg.channels && c.pc == At(SendTake, ch)
      modifies lists.heads, lists.nodes
      ensures var d := TakeToSend(cfg, c); Represents(d) && Points(frameObject, d.pc.held)
      ensures frameObject == null <==> c.fromHost[ch] == []
    {
      HostTaken(ch, c);
      assert FromHost(ch) < |lists.heads|;
      ghost var d, qs := TakeToSend(cfg, c), Queues(TakeToSend(cfg, c));
      assert qs == if c.fromHost[ch] == [] then Queues(c) else Queues(c)[FromHost(ch) := c.fromHost[ch][1..]];
      hide Fields, TakeToSend, FrameLists.Holds, Queues;
      frameObject := lists.TakeFirst(FromHost(ch), Queues(c));
      assert lists.Holds(qs);
      assert Fields(d);
    }

    /** What `TakeToSend` changes. */
    lemma HostTaken(ch: nat, c: Core)
      requires Fields(c) && ch < |c.fromHost| && c.pc == At(SendTake, ch)
      ensures Queues(c)[FromHost(ch)] == c.fromHost[ch]
      ensures var d, q := TakeToSend(cfg, c), c.fromHost[ch];
              Fields(d) && if q == [] then d.pc.held == None && Queues(d) == Queues(c)
                           else d.pc.held == Some(q[0]) && Queues(d) == Queues(c)[FromHost(ch) := q[1..]]
    {
      var d := TakeToSend(cfg, c);
      assert c.fromHost[ch] != [] ==> Queues(d) == Queues(c)[FromHost(ch) := c.fromHost[ch][1..]];
    }

    /** `can_send`, and in the frame if it was sent. */
    method CanSend(frameObject: ListHead, a: Answer, ghost c: Core) returns (sent: bool)
      requires Represents(c) && Points(frameObject, c.pc.held)
      modifies msgbuf
      ensures sent == a.mailboxFree && Represents(TrySend(cfg, c, a))
    {
      var i := frameObject.entry;
      sent := a.mailboxFree;
      if sent {
        msgbuf[i] := cfg.driver.sent(msgbuf[i]);
        msgbuf[i] := msgbuf[i].(reserved := 0);
        msgbuf[i] := msgbuf[i].(timestamp := a.now);
      }
    }

    /** `list_add_locked(&frame_object->list, &channel->list_from_host)` */
    method PutBackFirst(ch: nat, frameObject: ListHead, ghost c: Core)
      requires Represents(c) && ch < cfg.channels && c.pc.ch == ch && Points(frameObject, c.pc.held)
        && lists.Loose(frameObject, Queues(c))
      modifies lists.heads, lists.nodes
      ensures Represents(PutBack(cfg, c))
    {
      lists.AddFirst(FromHost(ch), frameObject, Queues(c));
      assert Queues(PutBack(cfg, c)) == Queues(c)[FromHost(ch) := [frameObject.entry] + c.fromHost[ch]];
    }

    /** `list_add_tail_locked(&frame_object->list, &hcan->list_to_host)` */
    method QueueToHost(frameObject: ListHead, ghost c: Core, ghost next: Pc)
      requires Represents(c) && Points(frameObject, c.pc.held) && lists.Loose(frameObject, Queues(c))
      modifies lists.heads, lists.nodes
      ensures Represents(QueueHeld(c, next))
    {
      lists.AddTail(TO_HOST, frameObject, Queues(c));
      assert Queues(QueueHeld(c, next)) == Queues(c)[TO_HOST := c.toHost + [frameObject.entry]];
    }

    /** `list_add_tail_locked(&frame_object->list, &hcan->list_frame_pool)` */
    method ReturnToPool(frameObject: ListHead, ghost c: Core, ghost next: Pc)
      requires Represents(c) && Points(frameObject, c.pc.held) && lists.Loose(frameObject, Queues(c))
      modifies lists.heads, lists.nodes
      ensures Represents(PoolReturn(c, next))
    {
      lists.AddTail(POOL, frameObject, Queues(c));
      assert Queues(PoolReturn(c, next)) == Queues(c)[POOL := c.pool + [frameObject.entry]];
    }

    /** Under `disable_irq` in `CAN_ReceiveFrame` and `CAN_HandleError`. */
    method TakeFromPool(ghost c: Core, ghost p: Point, ghost miss: Pc) returns (frameObject: ListHead?)
      requires Represents(c) && miss.held.None?
      modifies lists.heads, lists.nodes
      ensures var d := PoolTake(c, p, miss); Represents(d) && Points(frameObject, d.pc.held)
      ensures frameObject == null <==> c.pool == []
    {
      PoolTaken(c, p, miss);
      assert POOL < |lists.heads|;
      ghost var d, qs := PoolTake(c, p, miss), Queues(PoolTake(c, p, miss));
      assert qs == if c.pool == [] then Queues(c) else Queues(c)[POOL := c.pool[1..]];
      hide Fields, PoolTake, FrameLists.Holds, Queues;
      frameObject := lists.TakeFirst(POOL, Queues(c));
      assert lists.Holds(qs);
      assert Fields(d);
    }

    /** What `PoolTake` changes. */
    lemma PoolTaken(c: Core, p: Point, miss: Pc)
      requires Fields(c)
      ensures Queues(c)[POOL] == c.pool
      ensures var d := PoolTake(c, p, miss);
              Fields(d) && if c.pool == [] then d.pc == miss && Queues(d) == Queues(c)
                           else d.pc.held == Some(c.pool[0]) && Queues(d) == Queues(c)[POOL := c.pool[1..]]
    {
      var d := PoolTake(c, p, miss);
      assert c.pool != [] ==> Queues(d) == Queues(c)[POOL := c.pool[1..]];
    }

    /** `can_receive`, and the stores into the frame of a received message. */
    method CanReceive(frameObject: ListHead, ch: nat, a: Answer, ghost c: Core) returns (received: bool)
      requires Represents(c) && c.pc.ch == ch && Points(frameObject, c.pc.held)
      modifies msgbuf
      ensures received == a.rx.Some? && Represents(ReadRx(c, a))
    {
      var i := frameObject.entry;
      received := a.rx.Some?;
      if received {
        msgbuf[i] := a.rx.value.(channel := ch);
        msgbuf[i] := msgbuf[i].(echoId := NOT_ECHO);
        msgbuf[i] := msgbuf[i].(reserved := 0);
        assert msgbuf[i] == RxFrame(c, a.rx.value);
      }
    }

    /** The stores into an error frame and `can_parse_error_status`. */
    method ParseErrorStatus(frameObject: ListHead, ch: nat, err: bv32, a: Answer, ghost c: Core)
      returns (shouldSend: bool)
      requires Represents(c) && c.pc.ch == ch && c.pc.err == err && ch < |regEsrOld| && Points(frameObject, c.pc.held)
      modifies msgbuf, this`regEsrOld
      ensures Represents(ParseErr(cfg, c, a))
      ensures ParseErr(cfg, c, a).pc.at == if shouldSend then ErrQueue else ErrBack
    {
      var i := frameObject.entry;
      msgbuf[i] := msgbuf[i].(timestamp := a.now);
      msgbuf[i] := msgbuf[i].(channel := ch);
      var (send, f) := cfg.driver.parse(regEsrOld[ch], err, a.ecr, msgbuf[i]);
      msgbuf[i] := f;
      regEsrOld := regEsrOld[ch := err];
      shouldSend := send;
    }

    // ---------- sections of ReceiveFromHost and SendToHost ----------

    /** `USBD_GS_CAN_PrepareReceive` */
    method PrepareReceive()
      modifies this`outArmed
      ensures outArmed
    {
      outArmed := true;
    }

    method TakeForReceive(ghost c: Core) returns (taken: bool)
      requires Represents(c) && c.pc.at.OutTake?
      modifies this`fromHostBuf, lists.heads, lists.nodes
      ensures Represents(TakeForOut(c)) && taken == TakeForOut(c).pc.at.OutArm?
    {
      if fromHostBuf != null {
        return false;
      }
      fromHostBuf := lists.TakeFirst(POOL, Queues(c));
      taken := fromHostBuf != null;
      if c.pool != [] {
        assert Queues(TakeForOut(c)) == Queues(c)[POOL := c.pool[1..]];
      }
    }

    method TakeForTransmit(ghost c: Core) returns (taken: bool)
      requires Represents(c) && c.pc.at.InTake?
      modifies this`toHostBuf, lists.heads, lists.nodes
      ensures Represents(TakeForIn(cfg, c)) && taken == TakeForIn(cfg, c).pc.at.InTransmit?
    {
      if toHostBuf != null {
        return false;
      }
      toHostBuf := lists.TakeFirst(TO_HOST, Queues(c));
      taken := toHostBuf != null;
      if c.toHost != [] {
        assert Queues(TakeForIn(cfg, c)) == Queues(c)[TO_HOST := c.toHost[1..]];
      }
    }

    /** `USBD_GS_CAN_SendFrame`, `USBD_GS_CAN_Transmit` */
    method SendFrame(ghost c: Core) returns (ok: bool)
      requires Represents(c) && c.pc.at.InTransmit?
      modifies this`inFlight
      ensures Represents(Transmit(cfg, c)) && ok == !suspended
    {
      ok := !suspended;
      if ok {
        inFlight := true;
      }
    }

    method DropTransmit(ghost c: Core)
      requires Represents(c) && c.toHostBuf.Some? && lists.Loose(lists.nodes[c.toHostBuf.value], Queues(c))
      modifies this`toHostBuf, lists.heads, lists.nodes
      ensures Represents(DropIn(cfg, c))
    {
      lists.AddFirst(POOL, toHostBuf, Queues(c));
      toHostBuf := null;
      assert Queues(DropIn(cfg, c)) == Queues(c)[POOL := [c.toHostBuf.value] + c.pool];
    }

    // ---------- the callbacks ----------

    /** `USBD_GS_CAN_DataIn` */
    method DataIn(ghost c: Core)
      requires Represents(c) && c.toHostBuf.Some? && lists.Loose(lists.nodes[c.toHostBuf.value], Queues(c))
      modifies this`toHostBuf, this`inFlight, lists.heads, lists.nodes
      ensures Represents(CompleteIn(c))
    {
      inFlight := false;
      lists.AddTail(POOL, toHostBuf, Queues(c));
      toHostBuf := null;
      assert Queues(CompleteIn(c)) == Queues(c)[POOL := c.pool + [c.toHostBuf.value]];
    }

    /** Replace `from_host_buf` by a buffer from the pool, and receive into it if there is one. */
    method NextOutBuffer(ghost c: Core)
      requires Represents(c) && !c.outArmed
      modifies this`fromHostBuf, this`outArmed, lists.heads, lists.nodes
      ensures Represents(if c.pool == [] then c.(fromHostBuf := None)
                         else c.(fromHostBuf := Some(c.pool[0]), pool := c.pool[1..], outArmed := true))
    {
      fromHostBuf := lists.TakeFirst(POOL, Queues(c));
      if fromHostBuf != null {
        assert Queues(c.(pool := c.pool[1..])) == Queues(c)[POOL := c.pool[1..]];
        PrepareReceive();
      }
    }

    /** The part of `USBD_GS_CAN_DataOut` under `disable_irq`, and arming the next transfer. */
    method AcceptOut(ch: nat, ghost c: Core)
      requires Represents(c) && ch < cfg.channels && c.outArmed && c.fromHostBuf.Some?
      requires lists.Loose(lists.nodes[c.fromHostBuf.value], Queues(c))
      modifies this`fromHostBuf, this`outArmed, lists.heads, lists.nodes
      ensures Represents(QueueOut(c, ch))
    {
      outArmed := false;
      ghost var q := c.fromHost[ch] + [c.fromHostBuf.value];
      ghost var d := c.(fromHost := c.fromHost[ch := q], outArmed := false);
      lists.AddTail(FromHost(ch), fromHostBuf, Queues(c));
      assert Queues(d) == Queues(c)[FromHost(ch) := q];
      NextOutBuffer(d);
    }

    /** `USBD_GS_CAN_DataOut` on a transfer that wrote `f` into the buffer. */
    method DataOut(f: HostFrame, rxlen: nat, ghost c: Core)
      requires Represents(c) && c.outArmed && c.fromHostBuf.Some?
      requires lists.Loose(lists.nodes[c.fromHostBuf.value], Queues(c))
      modifies this`fromHostBuf, this`outArmed, lists.heads, lists.nodes, msgbuf
      ensures Represents(ReceiveOut(cfg, c, f, rxlen))
    {
      msgbuf[fromHostBuf.entry] := f;
      ghost var d := c.(store := c.store[c.fromHostBuf.value := f]);
      assert Represents(d);
      var frame := msgbuf[fromHostBuf.entry];
      if rxlen < CLASSIC_SIZE {
        PrepareReceive();
        return;
      }
      if frame.channel >= cfg.channels {
        PrepareReceive();
        return;
      }
      if cfg.canfd && frame.flags & FLAG_FD != 0 && rxlen < CANFD_SIZE {
        PrepareReceive();
        return;
      }
      AcceptOut(frame.channel, d);
    }
  }
}

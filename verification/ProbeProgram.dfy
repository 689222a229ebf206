/** The probe functions themselves, updating the BPF maps and the key struct step by step. */
module ProbeProgram {
  import opened FlowKeys
  import opened Text
  import opened Probes

  class NetscanEbpf {
    var connectStart: map<Thread, Sock>
    var sendmsgStart: map<Thread, Args>
    var flowDedup: map<FlowKey, nat>
    var events: seq<NetscanEvent>
    var clock: nat                     // bpf_ktime_get_ns
    ghost var history: seq<Item>

    ghost function View(): Kernel
      reads this
    {
      Kernel(connectStart, sendmsgStart, flowDedup, events, clock, history)
    }

    constructor ()
      ensures View() == BOOT
    {
      connectStart, sendmsgStart, flowDedup := map[], map[], map[];
      events, clock, history := [], 0, [];
    }

    /** kprobe on a send or receive function: stash the arguments, overwriting older ones. */
    method MessageEntry(t: Thread, sk: Sock, msg: nat)
      modifies this
      ensures View() == Next(old(View()), Enter(t, Args(sk, msg)))
    {
      history := history + [Entered(t, Args(sk, msg), Fits(sendmsgStart, t))];
      if t in sendmsgStart || |sendmsgStart| < STASH_CAPACITY {
        sendmsgStart := sendmsgStart[t := Args(sk, msg)];
      }
    }

    /** Look the stashed pointers up and delete them; NULL if there are none. */
    method TakeStashed(t: Thread) returns (found: bool, sk: Sock, msg: nat)
      modifies this`sendmsgStart, this`history
      ensures found <==> t in old(sendmsgStart)
      ensures found ==> View() == Take(old(View()), t) && old(sendmsgStart)[t] == Args(sk, msg)
      ensures !found ==> sk == 0 && View() == old(View())
    {
      found, sk, msg := t in sendmsgStart, 0, 0;
      if found {
        sk, msg := sendmsgStart[t].sk, sendmsgStart[t].msg;
        history := history + [Took(t, sendmsgStart[t])];
        sendmsgStart := sendmsgStart - {t};
      }
    }

    /** Throttle, then reserve, fill and submit the event. */
    method ThrottleAndEmit(t: Thread, ghost sk: Sock, eventType: EventType, protocol: nat, key: FlowKey,
                           shown: Endpoints, uid: nat, window: nat, room: bool)
      modifies this`flowDedup, this`events, this`history
      ensures View() == Pass(old(View()), t, sk, Report(eventType, protocol, key, shown, uid), window, room)
    {
      var now := clock;
      if key in flowDedup && (now - flowDedup[key]) % U64 < window {
        return;
      }
      flowDedup := flowDedup[key := now];
      var event := NetscanEvent(eventType, protocol, Pid(t), uid, shown, now);
      history := history + [Passed(t, sk, key, now, window, if room then Some(event) else None)];
      if !room {
        return;
      }
      events := events + [event];
    }

    method ProcessSendmsgExit(t: Thread, ret: int, hook: nat, mem: Mem, room: bool)
      modifies this
      ensures View() == Next(old(View()), FlowExit(t, ret, Send(hook), mem, room))
    {
      if ret < 0 {
        return;
      }
      var found, sk, msg := TakeStashed(t);
      if !found || sk == 0 {
        return;
      }
      var own := SockAt(mem, sk).protocol % 256;   // __u8
      var report := hook;
      if report != RAW {
        report := if own != 0 then own else report;
      }
      if report == UDP_LITE {
        return;
      }
      var key := new FlowKeyStruct();
      ResolveFlowKey(key, SockAt(mem, sk), NameAt(mem, msg), report);
      if report == RAW {
        key.sport := own;
      } else {
        key.sport := SockAt(mem, sk).num;
      }
      if report != RAW && key.sport == 0 {
        return;
      }
      ThrottleAndEmit(t, sk, Connect, report, key.Value(), Shown(key.Value()), SockAt(mem, sk).uid, FLOW_WINDOW, room);
    }

    method ProcessRecvmsgExit(t: Thread, ret: int, mem: Mem, room: bool)
      modifies this
      ensures View() == Next(old(View()), FlowExit(t, ret, Receive, mem, room))
    {
      if ret < 0 {
        return;
      }
      var found, sk, msg := TakeStashed(t);
      if !found || sk == 0 {
        return;
      }
      var key := new FlowKeyStruct();
      ResolveFlowKey(key, SockAt(mem, sk), NameAt(mem, msg), UDP);
      key.sport := SockAt(mem, sk).num;
      if key.sport == 0 {
        return;
      }
      ThrottleAndEmit(t, sk, Accept, UDP, key.Value(), Shown(key.Value()), SockAt(mem, sk).uid, FLOW_WINDOW, room);
    }

    method ProcessNonIpExit(t: Thread, ret: int, report: nat, mem: Mem, room: bool)
      modifies this
      ensures View() == Next(old(View()), FlowExit(t, ret, NonIp(report), mem, room))
    {
      if ret < 0 {
        return;
      }
      var found, sk, _ := TakeStashed(t);
      if !found || sk == 0 {
        return;
      }
      var key := new FlowKeyStruct();
      key.ipVersion := 0;
      key.sport := SockAt(mem, sk).sockType;
      key.saddrV4 := BytesOf32(Pid(t));
      var shown := Endpoints(0, ZERO4, ZERO4, ZERO6, ZERO6, SockAt(mem, sk).sockType, SockAt(mem, sk).protocol);
      ThrottleAndEmit(t, sk, Connect, report, key.Value(), shown, SockAt(mem, sk).uid, FLOW_WINDOW, room);
    }

    method TraceArpSend(t: Thread, arpType: nat, destIp: V4, srcIp: V4, uid: nat, room: bool)
      modifies this
      ensures View() == Next(old(View()), ArpSend(t, arpType, destIp, srcIp, uid, room))
    {
      var key := new FlowKeyStruct();
      key.ipVersion := 4;
      key.saddrV4 := srcIp;
      key.daddrV4 := destIp;
      key.sport := arpType % 0x1_0000;
      ThrottleAndEmit(t, 0, Connect, ARP, key.Value(),
                      Endpoints(4, srcIp, destIp, ZERO6, ZERO6, arpType % 0x1_0000, 0), uid, ARP_WINDOW, room);
    }

    method TraceConnectEntry(t: Thread, sk: Sock)
      modifies this
      ensures View() == Next(old(View()), ConnectEnter(t, sk))
    {
      history := history + [ConnectEntered(t, sk, Fits(connectStart, t))];
      if t in connectStart || |connectStart| < STASH_CAPACITY {
        connectStart := connectStart[t := sk];
      }
    }

    /** kretprobe on tcp_v4_connect or tcp_v6_connect, also for a call entered before the hooks were attached. */
    method TraceConnectExit(t: Thread, ret: int, mem: Mem, room: bool)
      modifies this
      ensures View() == Next(old(View()), ConnectExit(t, ret, mem, room))
    {
      history := history + [ConnectReturned(t)];
      if t !in connectStart {
        assert connectStart - {t} == connectStart;
        return;
      }
      var sk := connectStart[t];
      connectStart := connectStart - {t};
      if ret != 0 && ret != -EINPROGRESS {
        return;
      }
      if !room {
        return;
      }
      var shown := ConnectShown(SockAt(mem, sk));
      if shown.None? {
        return;
      }
      var event := NetscanEvent(Connect, TCP, Pid(t), SockAt(mem, sk).uid, shown.value, clock);
      events := events + [event];
      history := history + [ConnectReported(t, sk, event)];
    }
  }
}

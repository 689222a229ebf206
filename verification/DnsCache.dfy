/** The resolver's cache and its single-flight guard, as concurrent callers and resolutions use them. Every
    access to one of the two concurrent dictionaries is one step; steps interleave in any order. */
module DnsCache {
  import opened Text
  import opened DnsSearch

  /** In milliseconds: five minutes for a useful result, a minute for any other. */
  const SUCCESS_TTL := 300_000
  const FAILED_TTL := 60_000

  type Cache = map<string, DnsResult>

  function Ttl(r: DnsResult): int { if r.hasBothFamilies || r.hostname.Some? then SUCCESS_TTL else FAILED_TTL }

  predicate Fresh(r: DnsResult, now: int) { now - r.resolvedAt < Ttl(r) }

  // ---------- sibling addresses ----------

  function Texts(addresses: seq<Addr>): (texts: seq<string>)
    ensures |texts| == |addresses| && forall i :: 0 <= i < |addresses| ==> texts[i] == addresses[i].text
  {
    seq(|addresses|, i requires 0 <= i < |addresses| => addresses[i].text)
  }

  /** All addresses of the host name and of its base domain; a failed first lookup ends the attempt. */
  function SiblingAddresses(dns: Dns, hostname: string): seq<string>
  {
    var first := dns.forward(hostname);
    if !first.Found? then []
    else
      var base := ExtractBaseDomain(hostname);
      Texts(first.addresses)
      + if base.None? || EqualsIgnoreCase(base.value, hostname) then [] else Texts(Addresses(dns.forward(base.value)))
  }

  ghost predicate Lists(answer: Answer, ip: string)
  {
    answer.Found? && exists i :: 0 <= i < |answer.addresses| && answer.addresses[i].text == ip
  }

  lemma TextsAre(answer: Answer, ip: string)
    ensures ip in Texts(Addresses(answer)) <==> Lists(answer, ip)
  {
    var a := Addresses(answer);
    assert forall i :: 0 <= i < |a| ==> Texts(a)[i] == a[i].text;
  }

  /** The siblings of a host name are the addresses listed for it and, if these could be had, those listed for its
      base domain. */
  lemma SiblingsAre(dns: Dns, hostname: string, ip: string)
    ensures ip in SiblingAddresses(dns, hostname) <==>
            || Lists(dns.forward(hostname), ip)
            || (&& dns.forward(hostname).Found? && ExtractBaseDomain(hostname).Some?
                && Upper(ExtractBaseDomain(hostname).value) != Upper(hostname)
                && Lists(dns.forward(ExtractBaseDomain(hostname).value), ip))
  {
    TextsAre(dns.forward(hostname), ip);
    var base := ExtractBaseDomain(hostname);
    if base.Some? { TextsAre(dns.forward(base.value), ip); }
  }

  function Siblings(dns: Dns, r: DnsResult): seq<string>
  {
    if r.hostname.Some? then SiblingAddresses(dns, r.hostname.value) else []
  }

  /** TryAdd: never replaces. */
  function TryAdd(cache: Cache, ip: string, r: DnsResult): Cache { if ip in cache then cache else cache[ip := r] }

  function TryAddAll(cache: Cache, ips: seq<string>, r: DnsResult): Cache
    decreases |ips|
  {
    if ips == [] then cache else TryAddAll(TryAdd(cache, ips[0], r), ips[1..], r)
  }

  /** Sibling caching adds exactly the missing addresses, all with the shared result. */
  lemma {:induction false} TryAddAllAdds(cache: Cache, ips: seq<string>, r: DnsResult)
    ensures TryAddAll(cache, ips, r).Keys == cache.Keys + set ip | ip in ips
    ensures forall ip :: ip in TryAddAll(cache, ips, r) ==>
              TryAddAll(cache, ips, r)[ip] == if ip in cache then cache[ip] else r
    decreases |ips|
  {
    if ips != [] {
      TryAddAllAdds(TryAdd(cache, ips[0], r), ips[1..], r);
      assert (set ip | ip in ips) == {ips[0]} + set ip | ip in ips[1..];
    }
  }

  // ---------- the machine ----------

  /** Where a resolution is: searching, about to look up the siblings, caching them one by one, or at its
      final clean-up. */
  datatype Phase = Searching | Fetching(shared: DnsResult) | Caching(shared: DnsResult, todo: seq<string>) | Ending

  datatype Task = Task(ip: string, phase: Phase)

  /** A caller that found an expired entry, or none. */
  datatype Caller = Dropping(ip: string) | Starting(ip: string)

  datatype Event = Started(ip: string) | Finished(ip: string)

  datatype State = State(cache: Cache, inProgress: set<string>, tasks: map<nat, Task>, callers: map<nat, Caller>,
                         fetched: set<string>, log: seq<Event>)

  datatype Action =
    | Ask(caller: nat, ip: string, now: int)
    | Drop(caller: nat)
    | TryStart(caller: nat, task: nat)
    | Complete(task: nat, result: DnsResult)
    | Fetch(task: nat, dns: Dns)
    | CacheNext(task: nat)
    | Finish(task: nat)

  const INIT := State(map[], {}, map[], map[], {}, [])

  /** What a caller is given at once. */
  function CachedAnswer(cache: Cache, ip: string, now: int): Option<DnsResult>
  {
    if IsNullOrWhiteSpace(ip) || ip !in cache || !Fresh(cache[ip], now) then None else Some(cache[ip])
  }

  function AskNext(s: State, caller: nat, ip: string, now: int): State
  {
    if IsNullOrWhiteSpace(ip) || CachedAnswer(s.cache, ip, now).Some? then s
    else s.(callers := s.callers[caller := if ip in s.cache then Dropping(ip) else Starting(ip)])
  }

  function DropNext(s: State, caller: nat): State
  {
    if caller in s.callers && s.callers[caller].Dropping? then
      var ip := s.callers[caller].ip;
      s.(cache := s.cache - {ip}, callers := s.callers[caller := Starting(ip)])
    else s
  }

  function TryStartNext(s: State, caller: nat, task: nat): State
  {
    if caller in s.callers && s.callers[caller].Starting? && task !in s.tasks then
      var ip := s.callers[caller].ip;
      var t := s.(callers := s.callers - {caller});
      if ip in s.inProgress then t
      else t.(inProgress := s.inProgress + {ip}, tasks := s.tasks[task := Task(ip, Searching)],
              log := s.log + [Started(ip)])
    else s
  }

  function SetPhase(s: State, task: nat, phase: Phase): State
    requires task in s.tasks
  {
    s.(tasks := s.tasks[task := s.tasks[task].(phase := phase)])
  }

  predicate WorthSharing(r: DnsResult) { r.hasBothFamilies && r.hostname.Some? }

  function Store(s: State, task: nat, r: DnsResult): State
    requires task in s.tasks
  {
    SetPhase(s, task, if WorthSharing(r) then Fetching(r) else Ending).(cache := s.cache[s.tasks[task].ip := r])
  }

  /** The search ends; its result replaces any cached one. DNS may have changed while it ran, so any
      result with the address in its own slot is possible. */
  ghost function CompleteNext(s: State, task: nat, result: DnsResult): State
  {
    if task in s.tasks && s.tasks[task].phase.Searching? && OwnEntry(s.tasks[task].ip, result)
    then Store(s, task, result) else s
  }

  function FetchNext(s: State, task: nat, dns: Dns): State
  {
    if task in s.tasks && s.tasks[task].phase.Fetching? then
      var shared := s.tasks[task].phase.shared;
      var ips := Siblings(dns, shared);
      SetPhase(s, task, Caching(shared, ips)).(fetched := s.fetched + set ip | ip in ips)
    else s
  }

  function CacheNextNext(s: State, task: nat): State
  {
    if task in s.tasks && s.tasks[task].phase.Caching? then
      var phase := s.tasks[task].phase;
      if phase.todo == [] then SetPhase(s, task, Ending)
      else SetPhase(s, task, Caching(phase.shared, phase.todo[1..])).(
             cache := TryAdd(s.cache, phase.todo[0], phase.shared))
    else s
  }

  function FinishNext(s: State, task: nat): State
  {
    if task in s.tasks && s.tasks[task].phase.Ending? then
      var ip := s.tasks[task].ip;
      s.(inProgress := s.inProgress - {ip}, tasks := s.tasks - {task}, log := s.log + [Finished(ip)])
    else s
  }

  ghost function Next(s: State, a: Action): State
  {
    match a
    case Ask(caller, ip, now) => AskNext(s, caller, ip, now)
    case Drop(caller) => DropNext(s, caller)
    case TryStart(caller, task) => TryStartNext(s, caller, task)
    case Complete(task, result) => CompleteNext(s, task, result)
    case Fetch(task, dns) => FetchNext(s, task, dns)
    case CacheNext(task) => CacheNextNext(s, task)
    case Finish(task) => FinishNext(s, task)
  }

  ghost function Run(actions: seq<Action>): State
  {
    if actions == [] then INIT else Next(Run(actions[..|actions| - 1]), actions[|actions| - 1])
  }

  // ---------- what every run keeps ----------

  /** No address is resolved twice at a time. */
  ghost predicate SingleFlight(s: State) {
    forall a, b :: a in s.tasks && b in s.tasks && s.tasks[a].ip == s.tasks[b].ip ==> a == b
  }

  ghost predicate InFlight(s: State, ip: string) { exists t :: t in s.tasks && s.tasks[t].ip == ip }

  ghost predicate GuardIsExact(s: State) { forall ip :: ip in s.inProgress <==> InFlight(s, ip) }

  /** A dual-stack result, shared among the addresses of one host. */
  ghost predicate Shared(r: DnsResult) { r.hasBothFamilies && r.ipv4.Some? && r.ipv6.Some? && r.hostname.Some? }

  /** An entry is the result of resolving its own key, or a shared result for an address DNS listed. */
  ghost predicate Sound(s: State, ip: string, r: DnsResult) { OwnEntry(ip, r) || (Shared(r) && ip in s.fetched) }

  ghost predicate CacheIsSound(s: State) { forall ip :: ip in s.cache ==> Sound(s, ip, s.cache[ip]) }

  ghost predicate PhaseIsSound(s: State, p: Phase) {
    match p
    case Searching => true
    case Fetching(shared) => Shared(shared)
    case Caching(shared, todo) => Shared(shared) && forall ip :: ip in todo ==> ip in s.fetched
    case Ending => true
  }

  ghost predicate TasksAreSound(s: State) { forall t :: t in s.tasks ==> PhaseIsSound(s, s.tasks[t].phase) }

  function Count(log: seq<Event>, e: Event): nat
  {
    if log == [] then 0 else Count(log[..|log| - 1], e) + if log[|log| - 1] == e then 1 else 0
  }

  lemma CountSnoc(log: seq<Event>, last: Event, e: Event)
    ensures Count(log + [last], e) == Count(log, e) + if last == e then 1 else 0
  {
    assert (log + [last])[..|log|] == log;
  }

  /** Every resolution that was started has ended, except the one in flight. */
  ghost predicate Balanced(s: State) {
    forall ip :: Count(s.log, Started(ip)) == Count(s.log, Finished(ip)) + if ip in s.inProgress then 1 else 0
  }

  ghost predicate FlightInv(s: State) { SingleFlight(s) && GuardIsExact(s) && Balanced(s) }

  ghost predicate CacheInv(s: State) { CacheIsSound(s) && TasksAreSound(s) }

  ghost predicate Inv(s: State) { FlightInv(s) && CacheInv(s) }

  lemma SameTasksKeepFlight(s: State, t: State)
    requires FlightInv(s) && s.inProgress == t.inProgress && s.log == t.log
    requires s.tasks.Keys == t.tasks.Keys && forall k :: k in s.tasks ==> t.tasks[k].ip == s.tasks[k].ip
    ensures FlightInv(t)
  {
    forall ip ensures InFlight(s, ip) <==> InFlight(t, ip) {
      if InFlight(s, ip) {
        var k :| k in s.tasks && s.tasks[k].ip == ip;
        assert k in t.tasks;
      }
      if InFlight(t, ip) {
        var k :| k in t.tasks && t.tasks[k].ip == ip;
        assert k in s.tasks;
      }
    }
  }

  lemma LoggedOnce(s: State, t: State, ip: string)
    requires Balanced(s)
    requires || (ip !in s.inProgress && t.inProgress == s.inProgress + {ip} && t.log == s.log + [Started(ip)])
             || (ip in s.inProgress && t.inProgress == s.inProgress - {ip} && t.log == s.log + [Finished(ip)])
    ensures Balanced(t)
  {
    var last := if ip in s.inProgress then Finished(ip) else Started(ip);
    forall other
      ensures Count(t.log, Started(other)) == Count(t.log, Finished(other)) + if other in t.inProgress then 1 else 0
    {
      CountSnoc(s.log, last, Started(other));
      CountSnoc(s.log, last, Finished(other));
    }
  }

  /** All resolutions but one are those of the other state. */
  lemma OtherFlights(s: State, t: State, task: nat, ip: string)
    requires t.tasks == s.tasks[task := Task(ip, Searching)] && task !in s.tasks
    ensures forall other :: InFlight(t, other) <==> other == ip || InFlight(s, other)
  {
    forall other ensures InFlight(t, other) <==> other == ip || InFlight(s, other) {
      if InFlight(s, other) {
        var k :| k in s.tasks && s.tasks[k].ip == other;
        assert k in t.tasks && t.tasks[k] == s.tasks[k];
      }
      assert task in t.tasks && t.tasks[task].ip == ip;
    }
  }

  lemma TryStartKeepsFlight(s: State, caller: nat, task: nat)
    requires FlightInv(s)
    ensures FlightInv(TryStartNext(s, caller, task))
  {
    var t := TryStartNext(s, caller, task);
    if t.log != s.log {
      var ip := s.callers[caller].ip;
      LoggedOnce(s, t, ip);
      OtherFlights(s, t, task, ip);
      assert forall k :: k in s.tasks ==> InFlight(s, s.tasks[k].ip);
    } else {
      SameTasksKeepFlight(s, t);
    }
  }

  lemma FinishKeepsFlight(s: State, task: nat)
    requires FlightInv(s)
    ensures FlightInv(FinishNext(s, task))
  {
    var t := FinishNext(s, task);
    if t.log != s.log {
      var ip := s.tasks[task].ip;
      assert InFlight(s, ip);
      LoggedOnce(s, t, ip);
      forall other ensures InFlight(t, other) <==> other != ip && InFlight(s, other) {
        if other != ip && InFlight(s, other) {
          var k :| k in s.tasks && s.tasks[k].ip == other;
          assert k in t.tasks && t.tasks[k] == s.tasks[k];
        }
      }
    }
  }

  lemma NextKeepsFlight(s: State, a: Action)
    requires FlightInv(s)
    ensures FlightInv(Next(s, a))
  {
    match a
    case TryStart(caller, task) => TryStartKeepsFlight(s, caller, task);
    case Finish(task) => FinishKeepsFlight(s, task);
    case _ => SameTasksKeepFlight(s, Next(s, a));
  }

  lemma CompleteKeepsCache(s: State, task: nat, result: DnsResult)
    requires CacheInv(s)
    ensures CacheInv(CompleteNext(s, task, result))
  {}

  lemma FetchKeepsCache(s: State, task: nat, dns: Dns)
    requires CacheInv(s)
    ensures CacheInv(FetchNext(s, task, dns))
  {}

  lemma CacheNextKeepsCache(s: State, task: nat)
    requires CacheInv(s)
    ensures CacheInv(CacheNextNext(s, task))
  {
    if task in s.tasks && s.tasks[task].phase.Caching? && s.tasks[task].phase.todo != [] {
      var p := s.tasks[task].phase;
      assert PhaseIsSound(s, p);
      assert forall ip :: ip in p.todo[1..] ==> ip in p.todo;
      assert p.todo[0] in p.todo;
    }
  }

  lemma NextKeepsCache(s: State, a: Action)
    requires CacheInv(s)
    ensures CacheInv(Next(s, a))
  {
    match a
    case Complete(task, result) => CompleteKeepsCache(s, task, result);
    case Fetch(task, dns) => FetchKeepsCache(s, task, dns);
    case CacheNext(task) => CacheNextKeepsCache(s, task);
    case _ =>
  }

  /** Under every interleaving of callers, completions, failures and sibling caching: one resolution per
      address, a guard that is exactly the set in flight, and a cache that is sound. */
  lemma {:induction false} RunKeepsInv(actions: seq<Action>)
    ensures Inv(Run(actions))
  {
    if actions != [] {
      RunKeepsInv(actions[..|actions| - 1]);
      NextKeepsFlight(Run(actions[..|actions| - 1]), actions[|actions| - 1]);
      NextKeepsCache(Run(actions[..|actions| - 1]), actions[|actions| - 1]);
    }
  }

  /** A cached result is served for five minutes, or for one if it is neither dual-stack nor has a host name, and
      for a blank address never; times are in milliseconds. */
  ghost predicate Served(cache: Cache, ip: string, now: int) {
    && (exists i :: 0 <= i < |ip| && !IsBlank(ip[i])) && ip in cache
    && (if cache[ip].hasBothFamilies || cache[ip].hostname != None then now - cache[ip].resolvedAt < 300_000
        else now - cache[ip].resolvedAt < 60_000)
  }

  lemma ServedIff(cache: Cache, ip: string, now: int)
    ensures CachedAnswer(cache, ip, now) == if Served(cache, ip, now) then Some(cache[ip]) else None
  {}

  /** An entry that is not shared among addresses DNS listed has its key in the slot of the key's family. */
  lemma EntriesAreOwn(actions: seq<Action>, ip: string)
    requires ip in Run(actions).cache
    ensures var r := Run(actions).cache[ip];
            && r.hasBothFamilies == (r.ipv4.Some? && r.ipv6.Some?)
            && (!r.hasBothFamilies || ip !in Run(actions).fetched ==>
                  && (':' !in ip ==> r.ipv4 == Some(ip) && r.alternate == r.ipv6)
                  && (':' in ip ==> r.ipv6 == Some(ip) && r.alternate == r.ipv4))
  {
    RunKeepsInv(actions);
  }

  /** What a caller is given after any run is not stale, and it is either about the very address asked for, in
      the slot of its own family, or a complete dual-stack result of an address DNS listed. */
  lemma AnswersAreSound(actions: seq<Action>, ip: string, now: int)
    requires Served(Run(actions).cache, ip, now)
    ensures CachedAnswer(Run(actions).cache, ip, now) == Some(Run(actions).cache[ip])
    ensures var r := Run(actions).cache[ip];
            && r.hasBothFamilies == (r.ipv4.Some? && r.ipv6.Some?)
            && (!r.hasBothFamilies || ip !in Run(actions).fetched ==>
                  && (':' !in ip ==> r.ipv4 == Some(ip) && r.alternate == r.ipv6)
                  && (':' in ip ==> r.ipv6 == Some(ip) && r.alternate == r.ipv4))
  {
    EntriesAreOwn(actions, ip);
  }

  // ---------- the resolver itself ----------

  /** The cache a resolution leaves behind when nothing interferes. */
  ghost function Resolved(cache: Cache, ip: string, dns: Dns, now: int): Cache
  {
    var r := Expected(dns, ip, now);
    Shares(cache[ip := r], r, dns)
  }

  function Shares(cache: Cache, r: DnsResult, dns: Dns): Cache
  {
    if WorthSharing(r) then TryAddAll(cache, Siblings(dns, r), r) else cache
  }

  /** The cache after a resolution, address by address: the result under its own, and also under every sibling that
      had no entry, if it is dual-stack with a host name; nothing else changes. */
  lemma ResolvedAt(cache: Cache, ip: string, dns: Dns, now: int, x: string)
    ensures var r, after := Expected(dns, ip, now), Resolved(cache, ip, dns, now);
            var shared := r.ipv4 != None && r.ipv6 != None && r.hostname != None;
            && ip in after && after[ip] == r
            && (x != ip && x in cache ==> x in after && after[x] == cache[x])
            && (x != ip && x !in cache ==>
                  && (x in after <==> shared && x in SiblingAddresses(dns, r.hostname.value))
                  && (x in after ==> after[x] == r))
  {
    var r := Expected(dns, ip, now);
    ExpectedIsOwnEntry(dns, ip, now);
    TryAddAllAdds(cache[ip := r], Siblings(dns, r), r);
  }

  /** A call of GetOrStartResolve without interference. */
  function CallNext(s: State, caller: nat, task: nat, ip: string, now: int): State
  {
    TryStartNext(DropNext(AskNext(s, caller, ip, now), caller), caller, task)
  }

  /** One sibling after another, until none is left. */
  function CacheAllNext(s: State, task: nat): State
    requires task in s.tasks && s.tasks[task].phase.Caching?
    decreases |s.tasks[task].phase.todo|
  {
    var t := CacheNextNext(s, task);
    if s.tasks[task].phase.todo == [] then t else CacheAllNext(t, task)
  }

  lemma {:induction false} CacheAllAdds(s: State, task: nat)
    requires task in s.tasks && s.tasks[task].phase.Caching?
    ensures var p, t := s.tasks[task].phase, CacheAllNext(s, task);
            && t == SetPhase(s, task, Ending).(cache := TryAddAll(s.cache, p.todo, p.shared))
    decreases |s.tasks[task].phase.todo|
  {
    if s.tasks[task].phase.todo != [] {
      CacheAllAdds(CacheNextNext(s, task), task);
    }
  }

  function ShareNext(stored: State, task: nat, dns: Dns): State
  {
    var found := FetchNext(stored, task, dns);
    var caching := task in found.tasks && found.tasks[task].phase.Caching?;
    FinishNext(if caching then CacheAllNext(found, task) else found, task)
  }

  /** A resolution without interference, step by step. */
  ghost function ResolveNext(s: State, task: nat, dns: Dns, now: int): State
    requires task in s.tasks
  {
    ShareNext(CompleteNext(s, task, Expected(dns, s.tasks[task].ip, now)), task, dns)
  }

  lemma SharingAdds(s: State, task: nat, dns: Dns)
    requires task in s.tasks && s.tasks[task].phase.Fetching?
    ensures var shared, found := s.tasks[task].phase.shared, FetchNext(s, task, dns);
            && task in found.tasks && found.tasks[task].phase.Caching?
            && var t := CacheAllNext(found, task);
               && t.cache == TryAddAll(s.cache, Siblings(dns, shared), shared)
               && t.tasks == s.tasks[task := Task(s.tasks[task].ip, Ending)] && t.inProgress == s.inProgress
  {
    CacheAllAdds(FetchNext(s, task, dns), task);
  }

  lemma FinishCleansUp(s: State, ended: State, task: nat)
    requires task in s.tasks && ended.inProgress == s.inProgress
    requires ended.tasks == s.tasks[task := Task(s.tasks[task].ip, Ending)]
    ensures var t := FinishNext(ended, task);
            t.cache == ended.cache && t.inProgress == s.inProgress - {s.tasks[task].ip} && t.tasks == s.tasks - {task}
  {
    assert ended.tasks - {task} == s.tasks - {task};
  }

  lemma StoredAndShared(s: State, task: nat, r: DnsResult, dns: Dns)
    requires task in s.tasks
    ensures var ip, t := s.tasks[task].ip, ShareNext(Store(s, task, r), task, dns);
            && t.cache == Shares(s.cache[ip := r], r, dns)
            && t.inProgress == s.inProgress - {ip}
            && t.tasks == s.tasks - {task}
  {
    var stored := Store(s, task, r);
    if WorthSharing(r) {
      SharingAdds(stored, task, dns);
      var ended := CacheAllNext(FetchNext(stored, task, dns), task);
      assert ended.tasks == s.tasks[task := Task(s.tasks[task].ip, Ending)];
      FinishCleansUp(s, ended, task);
    } else {
      FinishCleansUp(s, stored, task);
    }
  }

  lemma UndisturbedResolution(s: State, task: nat, dns: Dns, now: int)
    requires task in s.tasks && s.tasks[task].phase.Searching?
    ensures var ip, t := s.tasks[task].ip, ResolveNext(s, task, dns, now);
            && t.cache == Resolved(s.cache, ip, dns, now)
            && t.inProgress == s.inProgress - {ip}
            && t.tasks == s.tasks - {task}
  {
    ExpectedIsOwnEntry(dns, s.tasks[task].ip, now);
    StoredAndShared(s, task, Expected(dns, s.tasks[task].ip, now), dns);
  }

  class DnsAddressResolver {
    var cache: Cache
    var inProgress: set<string>

    constructor()
      ensures cache == INIT.cache && inProgress == INIT.inProgress
    {
      cache, inProgress := map[], {};
    }

    /** `s` is any state of the machine with these two dictionaries; `started` says whether the caller
        now runs a resolution. */
    method GetOrStartResolve(remoteIp: string, now: int, ghost s: State, ghost caller: nat, ghost task: nat)
      returns (result: Option<DnsResult>, started: bool)
      requires s.cache == cache && s.inProgress == inProgress && caller !in s.callers && task !in s.tasks
      modifies this
      ensures result == CachedAnswer(old(cache), remoteIp, now)
      ensures result.Some? <==> Served(old(cache), remoteIp, now)
      ensures var t := CallNext(s, caller, task, remoteIp, now);
              && cache == t.cache && inProgress == t.inProgress
              && started == (task in t.tasks)
      ensures result.None? && !IsNullOrWhiteSpace(remoteIp) ==> remoteIp in inProgress && remoteIp !in cache
    {
      result, started := None, false;
      if IsNullOrWhiteSpace(remoteIp) { return; }
      if remoteIp in cache {
        var cached := cache[remoteIp];
        var ttl := if cached.hasBothFamilies || cached.hostname.Some? then SUCCESS_TTL else FAILED_TTL;
        if now - cached.resolvedAt < ttl { return Some(cached), false; }
        cache := cache - {remoteIp};
      }
      if remoteIp !in inProgress {
        inProgress := inProgress + {remoteIp};
        started := true;
      }
    }

    method PreCacheSiblingIps(dns: Dns, hostname: string, shared: DnsResult)
      modifies this`cache
      ensures cache == TryAddAll(old(cache), SiblingAddresses(dns, hostname), shared)
    {
      var first := dns.forward(hostname);
      if first.Found? {
        AddAll(first.addresses, shared);
        TryAddAllTwice(old(cache), Texts(first.addresses), [], shared);
        var base := ExtractBaseDomain(hostname);
        if base.Some? && !EqualsIgnoreCase(base.value, hostname) {
          var second := dns.forward(base.value);
          if second.Found? {
            AddAll(second.addresses, shared);
            TryAddAllTwice(old(cache), Texts(first.addresses), Texts(second.addresses), shared);
          } else {
            assert Texts([]) == [];
          }
        }
      }
    }

    method AddAll(addresses: seq<Addr>, shared: DnsResult)
      modifies this`cache
      ensures cache == TryAddAll(old(cache), Texts(addresses), shared)
    {
      for i := 0 to |addresses|
        invariant TryAddAll(cache, Texts(addresses)[i..], shared) == TryAddAll(old(cache), Texts(addresses), shared)
      {
        assert Texts(addresses)[i..][1..] == Texts(addresses)[i + 1..];
        cache := if addresses[i].text in cache then cache else cache[addresses[i].text := shared];
      }
    }

    method ResolveAsync(dns: Dns, remoteIp: string, now: int)
      requires CaseInsensitive(dns)
      modifies this
      ensures cache == Resolved(old(cache), remoteIp, dns, now)
      ensures inProgress == old(inProgress) - {remoteIp}
    {
      var result := Resolve(dns, remoteIp, now);
      cache := cache[remoteIp := result];
      if result.hasBothFamilies && result.hostname.Some? {
        PreCacheSiblingIps(dns, result.hostname.value, result);
      }
      inProgress := inProgress - {remoteIp};
    }
  }

  lemma {:induction false} TryAddAllTwice(cache: Cache, a: seq<string>, b: seq<string>, r: DnsResult)
    ensures TryAddAll(cache, a + b, r) == TryAddAll(TryAddAll(cache, a, r), b, r)
    decreases |a|
  {
    if a == [] {
      assert a + b == b;
    } else {
      assert (a + b)[1..] == a[1..] + b;
      TryAddAllTwice(TryAdd(cache, a[0], r), a[1..], b, r);
    }
  }
}

/** The staged search of the DNS resolver for one remote address, and the base domain it falls back on.
    DNS itself is a fixed function of the name asked for. */
module DnsSearch {
  import opened Text

  datatype Family = InterNetwork | InterNetworkV6 | OtherFamily

  datatype Addr = Addr(family: Family, text: string, linkLocal: bool)

  /** What a lookup gives: addresses, the socket error the resolver expects, or any other exception. */
  datatype Answer = Found(addresses: seq<Addr>) | NotFound | Broken

  datatype Reverse = Entry(hostName: string, addresses: seq<Addr>) | NoEntry | BrokenEntry

  datatype Dns = Dns(reverse: string -> Reverse, forward: string -> Answer)

  /** DNS names do not distinguish case. */
  ghost predicate CaseInsensitive(dns: Dns) {
    forall a, b :: EqualsIgnoreCase(a, b) ==> dns.forward(a) == dns.forward(b)
  }

  datatype DnsResult = DnsResult(hostname: Option<string>, ipv4: Option<string>, ipv6: Option<string>,
                                 alternate: Option<string>, hasBothFamilies: bool, resolvedAt: int)

  predicate IsIpv6(ip: string) { ':' in ip }

  // ---------- base domain ----------

  function TrimDots(s: string): (r: string)
    ensures r <= s && (r == "" || r[|r| - 1] != '.')
  {
    if s != "" && s[|s| - 1] == '.' then TrimDots(s[..|s| - 1]) else s
  }

  /** Nothing but dots is trimmed. */
  lemma {:induction false} OnlyDotsGo(s: string)
    ensures forall i :: |TrimDots(s)| <= i < |s| ==> s[i] == '.'
  {
    if s != "" && s[|s| - 1] == '.' { OnlyDotsGo(s[..|s| - 1]); }
  }

  function LastLabels(parts: seq<string>): (n: nat)
    requires |parts| >= 2
    ensures n == 2 || (n == 3 && |parts| >= 3)
  {
    if |parts| >= 3 && |parts[|parts| - 2]| <= 3 && |parts[|parts| - 1]| <= 3 then 3 else 2
  }

  /** The last labels, two or three of them. */
  function BaseLabels(labels: seq<string>): (last: seq<string>)
    requires |labels| >= 2
    ensures 2 <= |last| <= 3 && |last| <= |labels| && last == labels[|labels| - |last|..]
  {
    labels[|labels| - LastLabels(labels)..]
  }

  function Labels(hostname: string): seq<string> { Split(TrimDots(hostname), '.') }

  function ExtractBaseDomain(hostname: string): Option<string>
  {
    if IsNullOrWhiteSpace(hostname) || |Labels(hostname)| < 2 then None
    else Some(Join(BaseLabels(Labels(hostname)), '.'))
  }

  lemma {:induction false} JoinInTwo(parts: seq<string>, i: nat)
    requires 0 < i < |parts|
    ensures Join(parts, '.') == Join(parts[..i], '.') + "." + Join(parts[i..], '.')
  {
    if i == 1 {
      assert parts[..1] == [parts[0]];
    } else {
      JoinInTwo(parts[1..], i - 1);
      assert parts[1..][..i - 1] == parts[..i][1..] && parts[1..][i - 1..] == parts[i..];
    }
  }

  ghost predicate SuffixAtDot(base: string, host: string) { base == host || exists front :: host == front + "." + base }

  lemma LastLabelsAreSuffix(host: string)
    requires |Split(host, '.')| >= 2
    ensures var last := BaseLabels(Split(host, '.'));
            SuffixAtDot(Join(last, '.'), host) && Split(Join(last, '.'), '.') == last
  {
    var parts := Split(host, '.');
    var last := BaseLabels(parts);
    JoinSplit(host, '.');
    SplitJoin(last, '.');
    if |last| < |parts| { JoinInTwo(parts, |parts| - |last|); }
  }

  lemma BaseLabelsTwice(labels: seq<string>)
    requires |labels| >= 2
    ensures BaseLabels(BaseLabels(labels)) == BaseLabels(labels)
  {}

  lemma TrimmedTwice(s: string)
    requires s != "" ==> s[|s| - 1] != '.'
    ensures TrimDots(s) == s
  {}

  lemma SuffixIsTrimmed(base: string, host: string)
    requires SuffixAtDot(base, TrimDots(host)) && base != ""
    ensures TrimDots(base) == base
  {
    assert base[|base| - 1] == TrimDots(host)[|TrimDots(host)| - 1];
    TrimmedTwice(base);
  }

  lemma JoinHasDot(parts: seq<string>)
    requires |parts| >= 2
    ensures Join(parts, '.')[|parts[0]|] == '.' && !IsNullOrWhiteSpace(Join(parts, '.'))
  {
    assert Join(parts, '.') == parts[0] + ['.'] + Join(parts[1..], '.');
  }

  /** The base domain is the host name's own last two or three labels, cut at a dot, without a dot at
      its end. */
  lemma BaseDomainIsSuffix(hostname: string)
    requires ExtractBaseDomain(hostname).Some?
    ensures var base := ExtractBaseDomain(hostname).value;
            && SuffixAtDot(base, TrimDots(hostname)) && TrimDots(base) == base && !IsNullOrWhiteSpace(base)
            && Labels(base) == BaseLabels(Labels(hostname))
  {
    LastLabelsAreSuffix(TrimDots(hostname));
    JoinHasDot(BaseLabels(Labels(hostname)));
    SuffixIsTrimmed(ExtractBaseDomain(hostname).value, hostname);
  }

  /** Names of one label have none; with two short labels at its end a longer name keeps three labels. */
  lemma BaseDomainIff(hostname: string)
    ensures var n := |Labels(hostname)|;
            && (ExtractBaseDomain(hostname).Some? <==>
                (exists i :: 0 <= i < |hostname| && !IsBlank(hostname[i])) && n >= 2)
            && (ExtractBaseDomain(hostname).Some? ==>
                  |Labels(ExtractBaseDomain(hostname).value)| ==
                  if n > 2 && |Labels(hostname)[n - 2]| < 4 && |Labels(hostname)[n - 1]| < 4 then 3 else 2)
  {
    if ExtractBaseDomain(hostname).Some? { BaseDomainIsSuffix(hostname); }
  }

  /** Looking for the base domain of a base domain changes nothing. */
  lemma BaseDomainIdempotent(hostname: string)
    requires ExtractBaseDomain(hostname).Some?
    ensures ExtractBaseDomain(ExtractBaseDomain(hostname).value) == ExtractBaseDomain(hostname)
  {
    BaseDomainIsSuffix(hostname);
    BaseLabelsTwice(Labels(hostname));
  }

  function Www(base: string): (name: string)
    ensures |name| == |base| + 4 && name[..4] == "www." && name[4..] == base
  {
    "www." + base
  }

  lemma WwwLabels(base: string)
    requires base != "" && TrimDots(base) == base
    ensures TrimDots(Www(base)) == Www(base) && !IsNullOrWhiteSpace(Www(base))
    ensures Labels(Www(base)) == ["www"] + Labels(base)
  {
    assert Www(base)[|base| + 3] == base[|base| - 1] && Www(base)[0] == 'w';
    assert TrimDots(base) != "";
    TrimmedTwice(Www(base));
    JoinSplit(base, '.');
    var all := ["www"] + Split(base, '.');
    assert all[1..] == Split(base, '.');
    assert Join(all, '.') == "www" + ['.'] + base == Www(base);
    SplitJoin(all, '.');
  }

  predicate TwoShortLabels(labels: seq<string>) { |labels| == 2 && |labels[0]| <= 3 && |labels[1]| <= 3 }

  lemma LabelsUnderWww(labels: seq<string>, www: string)
    requires |labels| >= 2 && BaseLabels(labels) == labels && |www| <= 3
    ensures BaseLabels([www] + labels) == if TwoShortLabels(labels) then [www] + labels else labels
  {
    var all := [www] + labels;
    assert all[1..] == labels && all[0..] == all;
    assert all[|all| - 2] == labels[|labels| - 2] && all[|all| - 1] == labels[|labels| - 1];
    assert LastLabels(labels) == |labels|;
  }

  /** The `www` name leads back to the base domain unless the base domain is two short labels: then
      the three-label rule takes `www` for part of the domain. */
  lemma WwwLeadsBackIff(base: string)
    requires ExtractBaseDomain(base) == Some(base)
    ensures ExtractBaseDomain(Www(base)) == Some(base) <==> !TwoShortLabels(Labels(base))
  {
    BaseDomainIsSuffix(base);
    LabelsUnderWww(Labels(base), "www");
    WwwLabels(base);
    JoinSplit(base, '.');
    JoinSplit(Www(base), '.');
    assert |Www(base)| != |base|;
  }

  // ---------- what the search should find ----------

  function OrElse(a: Option<string>, b: Option<string>): Option<string> { if a.Some? then a else b }

  predicate Acceptable(a: Addr, f: Family) { a.family == f && (f == InterNetworkV6 ==> !a.linkLocal) }

  /** The first acceptable address of a family. */
  function FirstOf(f: Family, addresses: seq<Addr>): Option<string>
  {
    if addresses == [] then None
    else if Acceptable(addresses[0], f) then Some(addresses[0].text) else FirstOf(f, addresses[1..])
  }

  lemma {:induction false} FirstOfConcat(f: Family, a: seq<Addr>, b: seq<Addr>)
    ensures FirstOf(f, a + b) == OrElse(FirstOf(f, a), FirstOf(f, b))
  {
    if a == [] {
      assert a + b == b;
    } else {
      assert (a + b)[1..] == a[1..] + b;
      FirstOfConcat(f, a[1..], b);
    }
  }

  function Addresses(answer: Answer): seq<Addr> { if answer.Found? then answer.addresses else [] }

  /** All addresses the given names lead to, in order. */
  function Gathered(dns: Dns, names: seq<string>): seq<Addr>
  {
    if names == [] then [] else Gathered(dns, names[..|names| - 1]) + Addresses(dns.forward(names[|names| - 1]))
  }

  /** The address the connection itself uses fills the slot of its family. */
  function Own(ip: string, f: Family): Option<string>
  {
    if f == (if IsIpv6(ip) then InterNetworkV6 else InterNetwork) then Some(ip) else None
  }

  /** The best known address of a family, given everything DNS has said. */
  function Best(ip: string, f: Family, evidence: seq<Addr>): Option<string> { OrElse(Own(ip, f), FirstOf(f, evidence)) }

  predicate Complete(ip: string, evidence: seq<Addr>) {
    Best(ip, InterNetwork, evidence).Some? && Best(ip, InterNetworkV6, evidence).Some?
  }

  function HostName(dns: Dns, ip: string): Option<string>
  {
    var r := dns.reverse(ip);
    if r.Entry? && r.hostName != ip then Some(r.hostName) else None
  }

  function FromReverse(dns: Dns, ip: string): seq<Addr>
  {
    var r := dns.reverse(ip);
    if r.Entry? then r.addresses else []
  }

  /** Every name worth asking for: the host name, its base domain, and `www` under that. */
  function Names(hostname: Option<string>): seq<string>
  {
    if hostname.None? then []
    else
      var base := ExtractBaseDomain(hostname.value);
      [hostname.value] + if base.None? then [] else [base.value, Www(base.value)]
  }

  function Evidence(dns: Dns, ip: string, names: seq<string>): seq<Addr> { FromReverse(dns, ip) + Gathered(dns, names) }

  /** An unexpected error reaches the resolver: in the reverse lookup, or for a name asked for while an
      address is still missing. */
  ghost predicate Fails(dns: Dns, ip: string, names: seq<string>) {
    || dns.reverse(ip).BrokenEntry?
    || exists i :: 0 <= i < |names| && dns.forward(names[i]).Broken? && !Complete(ip, Evidence(dns, ip, names[..i]))
  }

  function FailedResult(ip: string, now: int): DnsResult
  {
    DnsResult(None, Own(ip, InterNetwork), Own(ip, InterNetworkV6), None, false, now)
  }

  // ---------- how it searches ----------

  /** The loop over the addresses of one answer. */
  method FillSlots(addresses: seq<Addr>, currentIpv4: Option<string>, currentIpv6: Option<string>)
    returns (ipv4: Option<string>, ipv6: Option<string>)
    ensures ipv4 == OrElse(currentIpv4, FirstOf(InterNetwork, addresses))
    ensures ipv6 == OrElse(currentIpv6, FirstOf(InterNetworkV6, addresses))
  {
    ipv4, ipv6 := currentIpv4, currentIpv6;
    for i := 0 to |addresses|
      invariant OrElse(ipv4, FirstOf(InterNetwork, addresses[i..]))
             == OrElse(currentIpv4, FirstOf(InterNetwork, addresses))
      invariant OrElse(ipv6, FirstOf(InterNetworkV6, addresses[i..]))
             == OrElse(currentIpv6, FirstOf(InterNetworkV6, addresses))
    {
      var addr := addresses[i];
      assert addresses[i..][1..] == addresses[i + 1..];
      if addr.family == InterNetwork && ipv4.None? {
        ipv4 := Some(addr.text);
      } else if addr.family == InterNetworkV6 && ipv6.None? && !addr.linkLocal {
        ipv6 := Some(addr.text);
      }
    }
  }

  /** One forward lookup; a socket error keeps what is known, any other error is passed on. */
  method TryResolveAddresses(dns: Dns, name: string, currentIpv4: Option<string>, currentIpv6: Option<string>)
    returns (ok: bool, ipv4: Option<string>, ipv6: Option<string>)
    ensures ok == !dns.forward(name).Broken?
    ensures ok ==> ipv4 == OrElse(currentIpv4, FirstOf(InterNetwork, Addresses(dns.forward(name))))
    ensures ok ==> ipv6 == OrElse(currentIpv6, FirstOf(InterNetworkV6, Addresses(dns.forward(name))))
  {
    ok, ipv4, ipv6 := true, currentIpv4, currentIpv6;
    match dns.forward(name)
    case Found(addresses) => ipv4, ipv6 := FillSlots(addresses, currentIpv4, currentIpv6);
    case NotFound =>
    case Broken => ok := false;
  }

  /** After dealing with the first `k` names the slots hold the best address found so far, and no lookup
      has failed that mattered. */
  ghost predicate Searched(dns: Dns, ip: string, names: seq<string>, k: nat, ipv4: Option<string>, ipv6: Option<string>)
    requires k <= |names|
  {
    && ipv4 == Best(ip, InterNetwork, Evidence(dns, ip, names[..k]))
    && ipv6 == Best(ip, InterNetworkV6, Evidence(dns, ip, names[..k]))
    && !Fails(dns, ip, names[..k])
  }

  lemma EvidenceGrows(dns: Dns, ip: string, names: seq<string>, k: nat)
    requires k < |names|
    ensures Evidence(dns, ip, names[..k + 1]) == Evidence(dns, ip, names[..k]) + Addresses(dns.forward(names[k]))
  {
    assert names[..k + 1][..k] == names[..k];
  }

  lemma BestGrows(ip: string, f: Family, before: seq<Addr>, more: seq<Addr>)
    ensures Best(ip, f, before + more) == OrElse(Best(ip, f, before), FirstOf(f, more))
  {
    FirstOfConcat(f, before, more);
  }

  lemma FailsOneMore(dns: Dns, ip: string, names: seq<string>, k: nat)
    requires k < |names| && !Fails(dns, ip, names[..k])
    ensures Fails(dns, ip, names[..k + 1])
        <==> dns.forward(names[k]).Broken? && !Complete(ip, Evidence(dns, ip, names[..k]))
  {
    var some, more := names[..k], names[..k + 1];
    forall i | 0 <= i <= k
      ensures more[i] == names[i] && more[..i] == names[..i]
      ensures i < k ==> some[..i] == names[..i] && some[i] == names[i]
    {}
    assert more[k] == names[k];
  }

  lemma OneMoreName(dns: Dns, ip: string, names: seq<string>, k: nat, ipv4: Option<string>, ipv6: Option<string>)
    requires k < |names| && Searched(dns, ip, names, k, ipv4, ipv6)
    requires dns.forward(names[k]).Broken? ==> ipv4.Some? && ipv6.Some?
    ensures Searched(dns, ip, names, k + 1, OrElse(ipv4, FirstOf(InterNetwork, Addresses(dns.forward(names[k])))),
                     OrElse(ipv6, FirstOf(InterNetworkV6, Addresses(dns.forward(names[k])))))
  {
    EvidenceGrows(dns, ip, names, k);
    var before, more := Evidence(dns, ip, names[..k]), Addresses(dns.forward(names[k]));
    BestGrows(ip, InterNetwork, before, more);
    BestGrows(ip, InterNetworkV6, before, more);
    FailsOneMore(dns, ip, names, k);
  }

  /** Nothing is lost by not asking again for a name that was already asked for. */
  lemma SkipRepeated(dns: Dns, ip: string, names: seq<string>, j: nat, k: nat, ipv4: Option<string>,
                     ipv6: Option<string>)
    requires j < k < |names| && Searched(dns, ip, names, k, ipv4, ipv6)
    requires dns.forward(names[k]) == dns.forward(names[j])
    ensures Searched(dns, ip, names, k + 1, ipv4, ipv6)
  {
    AlreadyGathered(dns, ip, names, j, k, InterNetwork);
    AlreadyGathered(dns, ip, names, j, k, InterNetworkV6);
    if dns.forward(names[k]).Broken? {
      assert names[..k][j] == names[j] && names[..k][..j] == names[..j];
      assert Complete(ip, Evidence(dns, ip, names[..j]));
    }
    OneMoreName(dns, ip, names, k, ipv4, ipv6);
  }

  predicate Known(dns: Dns, ip: string, names: seq<string>, k: nat, f: Family)
    requires k <= |names|
  {
    Best(ip, f, Evidence(dns, ip, names[..k])).Some?
  }

  lemma KnownGrows(dns: Dns, ip: string, names: seq<string>, k: nat, f: Family)
    requires 0 < k <= |names|
    ensures Known(dns, ip, names, k, f)
        <==> Known(dns, ip, names, k - 1, f) || FirstOf(f, Addresses(dns.forward(names[k - 1]))).Some?
  {
    var j: nat := k - 1;
    EvidenceGrows(dns, ip, names, j);
    BestGrows(ip, f, Evidence(dns, ip, names[..j]), Addresses(dns.forward(names[j])));
  }

  lemma {:induction false} KnownStays(dns: Dns, ip: string, names: seq<string>, j: nat, k: nat, f: Family)
    requires j <= k <= |names| && Known(dns, ip, names, j, f)
    ensures Known(dns, ip, names, k, f)
    decreases k - j
  {
    if j < k {
      KnownGrows(dns, ip, names, j + 1, f);
      KnownStays(dns, ip, names, j + 1, k, f);
    }
  }

  lemma AlreadyGathered(dns: Dns, ip: string, names: seq<string>, j: nat, k: nat, f: Family)
    requires j < k <= |names|
    ensures FirstOf(f, Addresses(dns.forward(names[j]))).Some? ==> Known(dns, ip, names, k, f)
    ensures Known(dns, ip, names, j, f) ==> Known(dns, ip, names, k, f)
  {
    KnownGrows(dns, ip, names, j + 1, f);
    if Known(dns, ip, names, j + 1, f) { KnownStays(dns, ip, names, j + 1, k, f); }
  }

  /** The rest of the names cannot change anything once both slots are filled. */
  lemma {:induction false} SkipRest(dns: Dns, ip: string, names: seq<string>, k: nat, ipv4: Option<string>,
                                    ipv6: Option<string>)
    requires k <= |names| && Searched(dns, ip, names, k, ipv4, ipv6) && ipv4.Some? && ipv6.Some?
    ensures Searched(dns, ip, names, |names|, ipv4, ipv6)
    decreases |names| - k
  {
    if k < |names| {
      OneMoreName(dns, ip, names, k, ipv4, ipv6);
      SkipRest(dns, ip, names, k + 1, ipv4, ipv6);
    }
  }

  lemma {:induction false} StillFails(dns: Dns, ip: string, names: seq<string>, k: nat)
    requires k <= |names| && Fails(dns, ip, names[..k])
    ensures Fails(dns, ip, names)
  {
    if !dns.reverse(ip).BrokenEntry? {
      var i :| 0 <= i < k && dns.forward(names[..k][i]).Broken? && !Complete(ip, Evidence(dns, ip, names[..k][..i]));
      assert names[..k][i] == names[i] && names[..k][..i] == names[..i];
    }
  }

  /** Reverse lookup first; nothing can have failed for lack of names. */
  method ReverseStep(dns: Dns, ip: string)
    returns (ok: bool, hostname: Option<string>, ipv4: Option<string>, ipv6: Option<string>)
    ensures ok == !dns.reverse(ip).BrokenEntry?
    ensures ok ==> hostname == HostName(dns, ip)
    ensures ok ==> Searched(dns, ip, Names(hostname), 0, ipv4, ipv6)
    ensures ok ==> if ':' in ip then ipv6 == Some(ip) else ipv4 == Some(ip)
    ensures ok ==> var r := dns.reverse(ip);
                   hostname == if r.NoEntry? || r.hostName == ip then None else Some(r.hostName)
  {
    ok, hostname, ipv4, ipv6 := true, None, None, None;
    if IsIpv6(ip) { ipv4, ipv6 := None, Some(ip); } else { ipv4, ipv6 := Some(ip), None; }
    match dns.reverse(ip) {
      case Entry(name, addresses) =>
        hostname := if name == ip then None else Some(name);
        ipv4, ipv6 := FillSlots(addresses, ipv4, ipv6);
      case NoEntry =>
      case BrokenEntry => ok := false;
    }
    assert Names(hostname)[..0] == [];
    assert Evidence(dns, ip, []) == FromReverse(dns, ip);
  }

  /** The result a remote address deserves: in each slot the connection's own address or the first
      acceptable one among all answers in order, whichever lookups were really made. */
  ghost function Expected(dns: Dns, ip: string, now: int): DnsResult
  {
    var names := Names(HostName(dns, ip));
    var evidence := Evidence(dns, ip, names);
    if Fails(dns, ip, names) then FailedResult(ip, now)
    else DnsResult(HostName(dns, ip), Best(ip, InterNetwork, evidence), Best(ip, InterNetworkV6, evidence),
                   Best(ip, if IsIpv6(ip) then InterNetwork else InterNetworkV6, evidence), Complete(ip, evidence), now)
  }

  /** ResolveAsync up to the result it caches. */
  method Resolve(dns: Dns, ip: string, now: int) returns (result: DnsResult)
    requires CaseInsensitive(dns)
    ensures result == Expected(dns, ip, now)
    ensures OwnEntry(ip, result) && result.resolvedAt == now && result.hostname != Some(ip)
  {
    var ok, hostname, ipv4, ipv6 := ReverseStep(dns, ip);
    if !ok { return FailedResult(ip, now); }
    ok, ipv4, ipv6 := ForwardSteps(dns, ip, hostname, ipv4, ipv6);
    if !ok { return FailedResult(ip, now); }
    assert Names(hostname)[..|Names(hostname)|] == Names(hostname);
    result := DnsResult(hostname, ipv4, ipv6, if IsIpv6(ip) then ipv4 else ipv6, ipv4.Some? && ipv6.Some?, now);
  }

  lemma NamesInOrder(hostname: string)
    ensures var names, base := Names(Some(hostname)), ExtractBaseDomain(hostname);
            && names[0] == hostname
            && |names| == (if base.Some? then 3 else 1)
            && (base.Some? ==> names[1] == base.value && names[2] == Www(base.value))
  {}

  /** The lookups by name: each only while an address is missing, and not for a name already asked for. */
  method ForwardSteps(dns: Dns, ip: string, hostname: Option<string>, ipv4In: Option<string>, ipv6In: Option<string>)
    returns (ok: bool, ipv4: Option<string>, ipv6: Option<string>)
    requires CaseInsensitive(dns) && Searched(dns, ip, Names(hostname), 0, ipv4In, ipv6In)
    ensures ok == !Fails(dns, ip, Names(hostname))
    ensures ok ==> Searched(dns, ip, Names(hostname), |Names(hostname)|, ipv4, ipv6)
  {
    ok, ipv4, ipv6 := true, ipv4In, ipv6In;
    ghost var names := Names(hostname);
    assert names[..|names|] == names;
    if hostname.Some? {
      NamesInOrder(hostname.value);
      if ipv4.None? || ipv6.None? {
        ok, ipv4, ipv6 := Ask(dns, ip, hostname.value, names, 0, ipv4, ipv6);
        if ok && (ipv4.None? || ipv6.None?) {
          ok, ipv4, ipv6 := DomainSteps(dns, ip, hostname.value, ipv4, ipv6);
        }
      } else {
        SkipRest(dns, ip, names, 0, ipv4, ipv6);
      }
    }
  }

  /** The base domain and its `www` name. */
  method DomainSteps(dns: Dns, ip: string, hostname: string, ipv4In: Option<string>, ipv6In: Option<string>)
    returns (ok: bool, ipv4: Option<string>, ipv6: Option<string>)
    requires CaseInsensitive(dns) && (ipv4In.None? || ipv6In.None?)
    requires Searched(dns, ip, Names(Some(hostname)), 1, ipv4In, ipv6In)
    ensures ok ==> Searched(dns, ip, Names(Some(hostname)), |Names(Some(hostname))|, ipv4, ipv6)
    ensures !ok ==> Fails(dns, ip, Names(Some(hostname)))
  {
    ok, ipv4, ipv6 := true, ipv4In, ipv6In;
    ghost var names := Names(Some(hostname));
    NamesInOrder(hostname);
    var baseDomain := ExtractBaseDomain(hostname);
    if baseDomain.Some? {
      ok, ipv4, ipv6 := AskUnlessFirst(dns, ip, baseDomain.value, hostname, names, 1, ipv4, ipv6);
      if ok && (ipv4.None? || ipv6.None?) {
        ok, ipv4, ipv6 := AskUnlessFirst(dns, ip, Www(baseDomain.value), hostname, names, 2, ipv4, ipv6);
      }
    }
  }

  /** A lookup that is left out when the name is the host name again. */
  method AskUnlessFirst(dns: Dns, ip: string, name: string, hostname: string, ghost names: seq<string>, ghost k: nat,
                        ipv4In: Option<string>, ipv6In: Option<string>)
    returns (ok: bool, ipv4: Option<string>, ipv6: Option<string>)
    requires CaseInsensitive(dns) && 0 < k < |names| && names[0] == hostname && names[k] == name
    requires Searched(dns, ip, names, k, ipv4In, ipv6In) && (ipv4In.None? || ipv6In.None?)
    ensures ok ==> Searched(dns, ip, names, k + 1, ipv4, ipv6)
    ensures ok && ipv4.Some? && ipv6.Some? ==> Searched(dns, ip, names, |names|, ipv4, ipv6)
    ensures !ok ==> Fails(dns, ip, names)
  {
    if !EqualsIgnoreCase(name, hostname) {
      ok, ipv4, ipv6 := Ask(dns, ip, name, names, k, ipv4In, ipv6In);
    } else {
      ok, ipv4, ipv6 := true, ipv4In, ipv6In;
      SkipRepeated(dns, ip, names, 0, k, ipv4, ipv6);
    }
  }

  method Ask(dns: Dns, ip: string, name: string, ghost names: seq<string>, ghost k: nat, ipv4In: Option<string>,
             ipv6In: Option<string>)
    returns (ok: bool, ipv4: Option<string>, ipv6: Option<string>)
    requires k < |names| && names[k] == name && Searched(dns, ip, names, k, ipv4In, ipv6In)
             && (ipv4In.None? || ipv6In.None?)
    ensures ok ==> Searched(dns, ip, names, k + 1, ipv4, ipv6)
    ensures ok && ipv4.Some? && ipv6.Some? ==> Searched(dns, ip, names, |names|, ipv4, ipv6)
    ensures !ok ==> Fails(dns, ip, names)
  {
    ok, ipv4, ipv6 := TryResolveAddresses(dns, name, ipv4In, ipv6In);
    if ok {
      OneMoreName(dns, ip, names, k, ipv4In, ipv6In);
      if ipv4.Some? && ipv6.Some? { SkipRest(dns, ip, names, k + 1, ipv4, ipv6); }
    } else {
      FailsOneMore(dns, ip, names, k);
      StillFails(dns, ip, names, k + 1);
    }
  }

  /** The address the connection uses fills the slot of its own family, an address with a colon being IPv6, and
      was never overwritten; the alternate is the other slot, and the flag says whether both are filled. */
  ghost predicate OwnEntry(ip: string, r: DnsResult) {
    && r.hasBothFamilies == (r.ipv4.Some? && r.ipv6.Some?)
    && (':' !in ip ==> r.ipv4 == Some(ip) && r.alternate == r.ipv6)
    && (':' in ip ==> r.ipv6 == Some(ip) && r.alternate == r.ipv4)
  }

  lemma ExpectedIsOwnEntry(dns: Dns, ip: string, now: int)
    ensures OwnEntry(ip, Expected(dns, ip, now)) && Expected(dns, ip, now).resolvedAt == now
  {}

  /** An address of each kind. */
  lemma BothKinds(dns: Dns, now: int)
    ensures Expected(dns, "8.8.8.8", now).ipv4 == Some("8.8.8.8")
    ensures Expected(dns, "2001:db8::1", now).ipv6 == Some("2001:db8::1")
  {
    var v6 := "2001:db8::1";
    assert v6[4] == ':';
    assert ':' !in "8.8.8.8";
  }

  /** A failed search leaves the connection's own address and nothing else. */
  lemma FailedSearch(dns: Dns, ip: string, now: int)
    requires dns.reverse(ip).BrokenEntry?
    ensures Expected(dns, ip, now) == if ':' in ip then DnsResult(None, None, Some(ip), None, false, now)
                                      else DnsResult(None, Some(ip), None, None, false, now)
  {}

  lemma OneNameMore(dns: Dns, ip: string, names: seq<string>, k: nat, f: Family)
    requires k < |names|
    ensures Best(ip, f, Evidence(dns, ip, names[..k + 1]))
         == OrElse(Best(ip, f, Evidence(dns, ip, names[..k])), FirstOf(f, Addresses(dns.forward(names[k]))))
  {
    EvidenceGrows(dns, ip, names, k);
    BestGrows(ip, f, Evidence(dns, ip, names[..k]), Addresses(dns.forward(names[k])));
  }

  lemma ThreeNames(dns: Dns, ip: string, names: seq<string>, f: Family)
    requires |names| == 3 && Own(ip, f).None?
    ensures Best(ip, f, Evidence(dns, ip, names)) ==
            OrElse(FirstOf(f, FromReverse(dns, ip)),
                   OrElse(FirstOf(f, Addresses(dns.forward(names[0]))),
                          OrElse(FirstOf(f, Addresses(dns.forward(names[1]))),
                                 FirstOf(f, Addresses(dns.forward(names[2]))))))
  {
    assert names[..0] == [] && names[..3] == names;
    OneNameMore(dns, ip, names, 0, f);
    OneNameMore(dns, ip, names, 1, f);
    OneNameMore(dns, ip, names, 2, f);
    assert Evidence(dns, ip, names[..0]) == FromReverse(dns, ip);
  }

  /** The other family's address, in order of preference: of the reverse answer, then of the host name, of its
      base domain, and of `www` under that. */
  lemma OrderOfPreference(dns: Dns, ip: string, now: int, hostname: string, addresses: seq<Addr>, base: string)
    requires dns.reverse(ip) == Entry(hostname, addresses) && hostname != ip
    requires ExtractBaseDomain(hostname) == Some(base) && !Fails(dns, ip, Names(Some(hostname)))
    ensures var f := if ':' in ip then InterNetwork else InterNetworkV6;
            Expected(dns, ip, now).alternate ==
            OrElse(FirstOf(f, addresses),
                   OrElse(FirstOf(f, Addresses(dns.forward(hostname))),
                          OrElse(FirstOf(f, Addresses(dns.forward(base))),
                                 FirstOf(f, Addresses(dns.forward("www." + base))))))
    ensures Expected(dns, ip, now).hostname == Some(hostname)
  {
    NamesInOrder(hostname);
    ThreeNames(dns, ip, Names(Some(hostname)), if ':' in ip then InterNetwork else InterNetworkV6);
  }

  /** The first address of the family asked for; link-local IPv6 addresses do not count. */
  lemma {:induction false} FirstOfIff(f: Family, addresses: seq<Addr>, i: nat)
    requires i < |addresses| && addresses[i].family == f && !(f == InterNetworkV6 && addresses[i].linkLocal)
    requires forall j :: 0 <= j < i ==> addresses[j].family != f || (f == InterNetworkV6 && addresses[j].linkLocal)
    ensures FirstOf(f, addresses) == Some(addresses[i].text)
  {
    if i > 0 { FirstOfIff(f, addresses[1..], i - 1); }
  }
}

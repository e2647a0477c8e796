/**
 The DNS override and its recovery journal (src/dns_darwin.go).  The system's resolvers and the
 journal file change by a list of effects; a crash of the process keeps any prefix of the list.
 */
module DnsJournal {
  import opened Wrappers

  type Service = string
  type Servers = seq<string>

  /** A file that is missing, incomplete, or the JSON of one service and its resolvers. */
  datatype Journal = Absent | Torn | Saved(service: Service, dns: Servers)

  datatype Host = Host(dns: map<Service, Servers>, journal: Journal)

  datatype Effect =
    | SetDns(service: Service, servers: Servers)
    | CreateJournal                            // exclusive: only when the file is missing
    | FillJournal(service: Service, dns: Servers)
    | RemoveJournal

  function Apply(h: Host, e: Effect): Host {
    match e
    case SetDns(service, servers) => h.(dns := h.dns[service := servers])
    case CreateJournal => h.(journal := Torn)
    case FillJournal(service, dns) => h.(journal := Saved(service, dns))
    case RemoveJournal => h.(journal := Absent)
  }

  function ApplyAll(h: Host, es: seq<Effect>): Host {
    if es == [] then h else Apply(ApplyAll(h, es[..|es| - 1]), es[|es| - 1])
  }

  /** A dnsOverride in memory; `journaled` says whether a journal path is configured. */
  datatype Override = Override(service: Service, originalDNS: Servers, journaled: bool)

  /** networksetup -setdnsservers may fail before or after the change took effect. */
  datatype Command = Succeeds | FailsUnapplied | FailsApplied

  /** The outcomes of the external operations of one override, in order. */
  datatype Outcomes = Outcomes(
    ipv4: bool,             // every server parses as an IPv4 address
    readOk: bool,           // an existing journal can be read
    recover: Command, removeOk: bool,
    statOk: bool,           // a missing journal is reported as missing
    active: Option<Service>, getOk: bool,
    mkdirOk: bool, createOk: bool, writeOk: bool, closeOk: bool,
    set_: Command)

  // ----- the plan: effects in order, and the result

  function SetEffects(c: Command, service: Service, servers: Servers): seq<Effect> {
    if c == FailsUnapplied then [] else [SetDns(service, servers)]
  }

  function RestoreEffects(d: Override, c: Command, removeOk: bool): seq<Effect> {
    SetEffects(c, d.service, d.originalDNS)
    + if c == Succeeds && d.journaled && removeOk then [RemoveJournal] else []
  }

  /** Recovery of an interrupted session; None when the override must be refused. */
  function RecoveryEffects(h: Host, o: Outcomes): (seq<Effect>, bool) {
    if h.journal.Absent? then ([], true)
    else if !o.readOk then ([], true) // an unreadable journal is not recovered from
    else if h.journal.Torn? || h.journal.service == "" then ([], false)
    else
      var d := Override(h.journal.service, h.journal.dns, true);
      (RestoreEffects(d, o.recover, o.removeOk), o.recover == Succeeds && o.removeOk && o.statOk)
  }

  /** The capture of the active service, its journal entry and the change itself. */
  function CaptureEffects(h: Host, servers: Servers, o: Outcomes, journaled: bool): (seq<Effect>, Option<Override>) {
    if o.active.None? || o.active.value !in h.dns || !o.getOk then ([], None)
    else
      var service, original := o.active.value, h.dns[o.active.value];
      if !journaled then
        (SetEffects(o.set_, service, servers),
         if o.set_ == Succeeds then Some(Override(service, original, false)) else None)
      else if !o.mkdirOk || !o.createOk || !h.journal.Absent? then ([], None)
      else if !o.writeOk then ([CreateJournal], None)
      else
        var saved := [CreateJournal, FillJournal(service, original)];
        if !o.closeOk then (saved, None)
        else
          (saved + SetEffects(o.set_, service, servers),
           if o.set_ == Succeeds then Some(Override(service, original, true)) else None)
  }

  function OverridePlan(h: Host, servers: Servers, o: Outcomes, journaled: bool): (seq<Effect>, Option<Override>) {
    if servers == [] || !o.ipv4 then ([], None)
    else
      var (recovery, proceed) := if journaled then RecoveryEffects(h, o) else ([], true);
      if !proceed then (recovery, None)
      else
        var (capture, result) := CaptureEffects(ApplyAll(h, recovery), servers, o, journaled);
        (recovery + capture, result)
  }

  // ----- the program

  class DnsHost {
    var dns: map<Service, Servers>
    var journal: Journal

    /** Every change made, in order. */
    ghost var log: seq<Effect>

    ghost function View(): Host
      reads this
    {
      Host(dns, journal)
    }

    constructor (dns: map<Service, Servers>, journal: Journal)
      ensures View() == Host(dns, journal) && log == []
    {
      this.dns, this.journal, log := dns, journal, [];
    }

    method SetServers(service: Service, servers: Servers, c: Command) returns (ok: bool)
      modifies this
      ensures ok == (c == Succeeds)
      ensures log == old(log) + SetEffects(c, service, servers)
      ensures View() == ApplyAll(old(View()), SetEffects(c, service, servers))
    {
      if c != FailsUnapplied {
        dns := dns[service := servers];
        log := log + [SetDns(service, servers)];
        OneEffect(old(View()), SetDns(service, servers));
      }
      return c == Succeeds;
    }

    /** dnsOverride.restore. */
    method Restore(d: Option<Override>, c: Command, removeOk: bool) returns (ok: bool)
      modifies this
      ensures d.None? ==> ok && View() == old(View()) && log == old(log)
      ensures d.Some? ==> ok == (c == Succeeds)
      ensures d.Some? ==> log == old(log) + RestoreEffects(d.value, c, removeOk)
      ensures d.Some? ==> View() == ApplyAll(old(View()), RestoreEffects(d.value, c, removeOk))
      ensures d.Some? ==> dns == if c == FailsUnapplied then old(dns) else old(dns)[d.value.service := d.value.originalDNS]
      ensures d.Some? ==> journal == if c == Succeeds && d.value.journaled && removeOk then Absent else old(journal)
    {
      if d.None? {
        return true;
      }
      ghost var set_ := SetEffects(c, d.value.service, d.value.originalDNS);
      ok := SetServers(d.value.service, d.value.originalDNS, c);
      assert set_ + [] == set_;
      if !ok {
        return false;
      }
      if d.value.journaled && removeOk {
        ApplyAppend(old(View()), set_, RemoveJournal);
        journal := Absent;
        log := log + [RemoveJournal];
      }
      return true;
    }

    /** The part of overrideDNS that finishes an interrupted session. */
    method Recover(o: Outcomes) returns (proceed: bool, ghost recovery: seq<Effect>)
      modifies this
      ensures (recovery, proceed) == RecoveryEffects(old(View()), o)
      ensures log == old(log) + recovery && View() == ApplyAll(old(View()), recovery)
    {
      recovery := [];
      if !journal.Absent? && o.readOk {
        if journal.Torn? || journal.service == "" {
          return false, recovery;
        }
        var saved := Override(journal.service, journal.dns, true);
        recovery := RestoreEffects(saved, o.recover, o.removeOk);
        var ok := Restore(Some(saved), o.recover, o.removeOk);
        if !ok {
          return false, recovery;
        }
        if !o.removeOk || !o.statOk {
          return false, recovery;
        }
      }
      return true, recovery;
    }

    /** overrideDNS. */
    method OverrideDNS(servers: Servers, o: Outcomes, journaled: bool) returns (r: Option<Override>)
      modifies this
      ensures var (effects, result) := OverridePlan(old(View()), servers, o, journaled);
              && log == old(log) + effects
              && View() == ApplyAll(old(View()), effects)
              && r == result
    {
      ghost var before, recovery: seq<Effect> := View(), [];
      if |servers| == 0 {
        return None;
      }
      if !o.ipv4 {
        return None;
      }
      if journaled {
        var proceed;
        proceed, recovery := Recover(o);
        if !proceed {
          return None;
        }
      }
      ghost var capture;
      r, capture := Capture(servers, o, journaled);
      ApplyConcat(before, recovery, capture);
    }

    /** The part of overrideDNS after recovery. */
    method Capture(servers: Servers, o: Outcomes, journaled: bool) returns (r: Option<Override>, ghost capture: seq<Effect>)
      modifies this
      ensures (capture, r) == CaptureEffects(old(View()), servers, o, journaled)
      ensures log == old(log) + capture && View() == ApplyAll(old(View()), capture)
    {
      ghost var before := View();
      capture := [];
      if o.active.None? {
        return None, capture;
      }
      var service := o.active.value;
      if service !in dns || !o.getOk {
        return None, capture;
      }
      var original := dns[service];
      if journaled {
        if !o.mkdirOk {
          return None, capture;
        }
        if !o.createOk || !journal.Absent? {
          return None, capture;
        }
        journal := Torn;
        log := log + [CreateJournal];
        capture := [CreateJournal];
        OneEffect(before, CreateJournal);
        if !o.writeOk {
          return None, capture;
        }
        journal := Saved(service, original);
        log := log + [FillJournal(service, original)];
        ApplyAppend(before, capture, FillJournal(service, original));
        capture := capture + [FillJournal(service, original)];
        assert capture == [CreateJournal, FillJournal(service, original)];
        if !o.closeOk {
          return None, capture;
        }
      }
      var ok := SetServers(service, servers, o.set_);
      ApplyConcat(before, capture, SetEffects(o.set_, service, servers));
      capture := capture + SetEffects(o.set_, service, servers);
      if !ok {
        return None, capture;
      }
      return Some(Override(service, original, journaled)), capture;
    }
  }

  lemma OneEffect(h: Host, e: Effect)
    ensures ApplyAll(h, [e]) == Apply(h, e)
  {
    assert [e][..0] == [];
  }

  lemma ApplyAppend(h: Host, es: seq<Effect>, e: Effect)
    ensures ApplyAll(h, es + [e]) == Apply(ApplyAll(h, es), e)
  {
    assert (es + [e])[..|es|] == es;
  }

  lemma {:induction false} ApplyConcat(h: Host, a: seq<Effect>, b: seq<Effect>)
    ensures ApplyAll(h, a + b) == ApplyAll(ApplyAll(h, a), b)
  {
    if b == [] {
      assert a + b == a;
    } else {
      assert a + b == (a + b[..|b| - 1]) + [b[|b| - 1]];
      ApplyAppend(h, a + b[..|b| - 1], b[|b| - 1]);
      ApplyConcat(h, a, b[..|b| - 1]);
    }
  }

  // ----- what a call leaves, for all outcomes

  lemma RestoreMeaning(h: Host, d: Override, c: Command, removeOk: bool)
    ensures ApplyAll(h, RestoreEffects(d, c, removeOk))
         == Host(if c == FailsUnapplied then h.dns else h.dns[d.service := d.originalDNS],
                 if c == Succeeds && d.journaled && removeOk then Absent else h.journal)
  {
    var set_, none: seq<Effect> := [SetDns(d.service, d.originalDNS)], [];
    OneEffect(h, set_[0]);
    ApplyAppend(h, set_, RemoveJournal);
    assert set_ + none == set_ && none + none == none;
  }

  /** A whole journal is found and read: the interrupted session is restored first. */
  predicate Recovers(h: Host, o: Outcomes) {
    h.journal.Saved? && h.journal.service != "" && o.readOk
  }

  /** The host after that, or as it was. */
  function Recovered(h: Host, o: Outcomes): Host {
    if !Recovers(h, o) then h
    else Host(if o.recover == FailsUnapplied then h.dns else h.dns[h.journal.service := h.journal.dns],
              if o.recover == Succeeds && o.removeOk then Absent else h.journal)
  }

  /** The override goes on to capture the active service's resolvers. */
  predicate Captures(h: Host, o: Outcomes, journaled: bool) {
    && (journaled ==> h.journal.Absent? || !o.readOk || (Recovers(h, o) && o.recover == Succeeds && o.removeOk && o.statOk))
    && o.active.Some? && o.getOk
    && o.active.value in (if journaled then Recovered(h, o) else h).dns
  }

  lemma RecoveryMeaning(h: Host, o: Outcomes)
    ensures var (recovery, proceed) := RecoveryEffects(h, o);
            && ApplyAll(h, recovery) == Recovered(h, o)
            && (proceed <==> h.journal.Absent? || !o.readOk || (Recovers(h, o) && o.recover == Succeeds && o.removeOk && o.statOk))
  {
    if Recovers(h, o) {
      RestoreMeaning(h, Override(h.journal.service, h.journal.dns, true), o.recover, o.removeOk);
    }
  }

  /** A capture's final state, its result, and what it saved. */
  lemma CaptureMeaning(h: Host, servers: Servers, o: Outcomes, journaled: bool)
    requires o.active.Some? && o.active.value in h.dns && o.getOk
    ensures var (es, result) := CaptureEffects(h, servers, o, journaled);
            var s, own := o.active.value, h.dns[o.active.value];
            var created := journaled && o.mkdirOk && o.createOk && h.journal.Absent?;
            var ready := !journaled || (created && o.writeOk && o.closeOk);
            && result == (if ready && o.set_ == Succeeds then Some(Override(s, own, journaled)) else None)
            && ApplyAll(h, es) == Host(if ready && o.set_ != FailsUnapplied then h.dns[s := servers] else h.dns,
                                       if !created then h.journal else if o.writeOk then Saved(s, own) else Torn)
  {
    var s, own := o.active.value, h.dns[o.active.value];
    var saved, none: seq<Effect> := [CreateJournal, FillJournal(s, own)], [];
    OneEffect(h, SetDns(s, servers));
    OneEffect(h, CreateJournal);
    assert [CreateJournal] + [FillJournal(s, own)] == saved;
    ApplyAppend(h, [CreateJournal], FillJournal(s, own));
    ApplyAppend(h, saved, SetDns(s, servers));
    assert saved + none == saved;
  }

  /**
   An override, for all outcomes.  It is granted exactly when the servers are acceptable, nothing
   is left of an earlier session, the active service is captured and journaled, and the command
   succeeds.  Granted or not, the resolvers are those after recovery, but for the command itself;
   and the journal holds the captured service as soon as its file could be created and written.
   */
  lemma OverrideMeaning(h: Host, servers: Servers, o: Outcomes, journaled: bool)
    ensures var (es, result) := OverridePlan(h, servers, o, journaled);
            var asked := servers != [] && o.ipv4;
            var base := if asked && journaled then Recovered(h, o) else h;
            if !asked || !Captures(h, o, journaled) then result.None? && ApplyAll(h, es) == base
            else
              var s, own := o.active.value, base.dns[o.active.value];
              var created := journaled && o.mkdirOk && o.createOk && base.journal.Absent?;
              var ready := !journaled || (created && o.writeOk && o.closeOk);
              && result == (if ready && o.set_ == Succeeds then Some(Override(s, own, journaled)) else None)
              && ApplyAll(h, es) == Host(if ready && o.set_ != FailsUnapplied then base.dns[s := servers] else base.dns,
                                         if !created then base.journal else if o.writeOk then Saved(s, own) else Torn)
  {
    if servers != [] && o.ipv4 {
      var (recovery, proceed) := if journaled then RecoveryEffects(h, o) else ([], true);
      RecoveryMeaning(h, o);
      if proceed {
        var base := ApplyAll(h, recovery);
        ApplyConcat(h, recovery, CaptureEffects(base, servers, o, journaled).0);
        if Captures(h, o, journaled) {
          CaptureMeaning(base, servers, o, journaled);
        }
      }
    }
  }

  // ----- runs with failures and crashes

  /** One process at a time owns the DNS; its override, if any, is in its memory. */
  datatype World = World(host: Host, held: Option<Override>)

  /** crashAfter: the process dies after that many effects; None is a completed call. */
  datatype Op =
    | DoOverride(servers: Servers, o: Outcomes, crashAfter: Option<nat>)
    | DoRestore(c: Command, removeOk: bool, crashAfter: Option<nat>)
    | Crash

  function Prefix(es: seq<Effect>, n: nat): seq<Effect> {
    if n <= |es| then es[..n] else es
  }

  /** What a list of effects leaves, cut by a crash or not, with the override in memory that a whole one returns. */
  function After(h: Host, es: seq<Effect>, result: Option<Override>, crashAfter: Option<nat>): World {
    match crashAfter
    case None => World(ApplyAll(h, es), result)
    case Some(n) => World(ApplyAll(h, Prefix(es, n)), None)
  }

  /** Connect overrides only while no override is held, and Disconnect gives the held one up whatever restore returns. */
  function Step(w: World, op: Op, journaled: bool): World {
    match op
    case DoOverride(servers, o, crashAfter) =>
      if w.held.Some? then w
      else
        var (effects, result) := OverridePlan(w.host, servers, o, journaled);
        After(w.host, effects, result, crashAfter)
    case DoRestore(c, removeOk, crashAfter) =>
      if w.held.None? then w
      else
        After(w.host, RestoreEffects(w.held.value, c, removeOk), None, crashAfter)
    case Crash => w.(held := None)
  }

  function Run(w: World, ops: seq<Op>, journaled: bool): World {
    if ops == [] then w else Step(Run(w, ops[..|ops| - 1], journaled), ops[|ops| - 1], journaled)
  }

  /** A service has its original resolvers, or the journal holds exactly that service and its originals. */
  predicate Recoverable(h: Host, original: map<Service, Servers>) {
    && h.dns.Keys == original.Keys
    && (forall s | s in original :: h.dns[s] == original[s] || h.journal == Saved(s, original[s]))
    && (h.journal.Saved? ==> h.journal.service in original && h.journal.dns == original[h.journal.service])
  }

  predicate Inv(w: World, original: map<Service, Servers>) {
    && Recoverable(w.host, original)
    && (w.held.Some? ==>
          var d := w.held.value;
          d.journaled && d.service in original && d.originalDNS == original[d.service]
          && w.host.journal == Saved(d.service, d.originalDNS))
  }

  /** An effect that keeps the invariant wherever the process stops. */
  predicate Safe(h: Host, e: Effect, original: map<Service, Servers>) {
    match e
    case SetDns(s, servers) =>
      s in original && (servers == original[s] || h.journal == Saved(s, original[s]))
    case CreateJournal => h.journal.Absent?
    case FillJournal(s, dns) => s in original && dns == original[s] && !h.journal.Saved?
    case RemoveJournal =>
      forall s | s in original :: s in h.dns && h.dns[s] == original[s]
  }

  /** Every effect of the list is safe when its turn comes. */
  predicate AllSafe(h: Host, es: seq<Effect>, original: map<Service, Servers>) {
    es == [] || (AllSafe(h, es[..|es| - 1], original) && Safe(ApplyAll(h, es[..|es| - 1]), es[|es| - 1], original))
  }

  lemma OneMoreSafe(h: Host, es: seq<Effect>, e: Effect, original: map<Service, Servers>)
    requires AllSafe(h, es, original) && Safe(ApplyAll(h, es), e, original)
    ensures AllSafe(h, es + [e], original) && ApplyAll(h, es + [e]) == Apply(ApplyAll(h, es), e)
  {
    assert (es + [e])[..|es|] == es;
  }

  lemma {:induction false} SafeKeepsRecoverable(h: Host, es: seq<Effect>, original: map<Service, Servers>, n: nat)
    requires Recoverable(h, original) && AllSafe(h, es, original) && n <= |es|
    ensures Recoverable(ApplyAll(h, es[..n]), original)
    decreases |es|
  {
    if n < |es| {
      SafeKeepsRecoverable(h, es[..|es| - 1], original, n);
      assert es[..|es| - 1][..n] == es[..n];
    } else if n > 0 {
      SafeKeepsRecoverable(h, es[..n - 1], original, n - 1);
      assert es[..n - 1][..n - 1] == es[..n - 1] && es[..n] == es;
      SafeStep(ApplyAll(h, es[..n - 1]), es[n - 1], original);
    }
  }

  lemma SafeStep(h: Host, e: Effect, original: map<Service, Servers>)
    requires Recoverable(h, original) && Safe(h, e, original)
    ensures Recoverable(Apply(h, e), original)
  {
  }

  lemma {:induction false} AllSafeConcat(h: Host, a: seq<Effect>, b: seq<Effect>, original: map<Service, Servers>)
    requires AllSafe(h, a, original) && AllSafe(ApplyAll(h, a), b, original)
    ensures AllSafe(h, a + b, original)
  {
    if b == [] {
      assert a + b == a;
    } else {
      var init, e := b[..|b| - 1], b[|b| - 1];
      AllSafeConcat(h, a, init, original);
      ApplyConcat(h, a, init);
      OneMoreSafe(h, a + init, e, original);
      assert a + b == a + init + [e];
    }
  }

  /** Restoring the saved service is safe at every point, and success leaves every service original. */
  lemma RestoreIsSafe(h: Host, d: Override, c: Command, removeOk: bool, original: map<Service, Servers>)
    requires Recoverable(h, original) && d.journaled && h.journal == Saved(d.service, d.originalDNS)
    ensures var es := RestoreEffects(d, c, removeOk);
            && AllSafe(h, es, original)
            && (c == Succeeds ==> ApplyAll(h, es).dns == original)
            && (c == Succeeds && removeOk ==> ApplyAll(h, es).journal == Absent)
  {
    var none: seq<Effect> := [];
    var set_ := SetDns(d.service, d.originalDNS);
    assert none + [set_] == [set_];
    if c != FailsUnapplied {
      OneMoreSafe(h, none, set_, original);
    }
    if c == Succeeds {
      assert ApplyAll(h, [set_]).dns == original;
      OneMoreSafe(h, [set_], RemoveJournal, original);
      assert RestoreEffects(d, c, removeOk) == if removeOk then [set_] + [RemoveJournal] else [set_];
    } else {
      assert RestoreEffects(d, c, removeOk) == if c == FailsApplied then [set_] else none;
    }
  }

  /** The journal is created and filled before the resolvers change: each of the three lists is safe. */
  lemma JournalFirst(h: Host, s: Service, servers: Servers, original: map<Service, Servers>)
    requires Recoverable(h, original) && h.journal.Absent? && s in original
    ensures h.dns[s] == original[s]
    ensures AllSafe(h, [CreateJournal], original)
    ensures AllSafe(h, [CreateJournal, FillJournal(s, original[s])], original)
    ensures var es := [CreateJournal, FillJournal(s, original[s]), SetDns(s, servers)];
            AllSafe(h, es, original) && ApplyAll(h, es) == Host(h.dns[s := servers], Saved(s, original[s]))
  {
    var none: seq<Effect> := [];
    var fill, set_ := FillJournal(s, original[s]), SetDns(s, servers);
    OneMoreSafe(h, none, CreateJournal, original);
    assert none + [CreateJournal] == [CreateJournal];
    OneMoreSafe(h, [CreateJournal], fill, original);
    assert [CreateJournal] + [fill] == [CreateJournal, fill];
    OneMoreSafe(h, [CreateJournal, fill], set_, original);
    assert [CreateJournal, fill] + [set_] == [CreateJournal, fill, set_];
  }

  /** A capture is one of these lists, and what it returns is what it saved. */
  lemma CaptureList(h: Host, servers: Servers, o: Outcomes)
    ensures var (es, result) := CaptureEffects(h, servers, o, true);
            (es == [] && result.None?) ||
            (o.active.Some? && o.active.value in h.dns && h.journal.Absent? &&
             var s := o.active.value;
             var own := h.dns[s];
             && es in {[CreateJournal], [CreateJournal, FillJournal(s, own)], [CreateJournal, FillJournal(s, own), SetDns(s, servers)]}
             && (result.Some? ==>
                   result.value == Override(s, own, true) && es == [CreateJournal, FillJournal(s, own), SetDns(s, servers)]))
  {
    if o.active.Some? && o.active.value in h.dns {
      var s := o.active.value;
      var saved := [CreateJournal, FillJournal(s, h.dns[s])];
      assert saved + [] == saved;
      assert saved + [SetDns(s, servers)] == [CreateJournal, FillJournal(s, h.dns[s]), SetDns(s, servers)];
    }
  }

  /** The capture writes the journal before it touches the resolvers. */
  lemma CaptureIsSafe(h: Host, servers: Servers, o: Outcomes, original: map<Service, Servers>)
    requires Recoverable(h, original)
    ensures var (es, result) := CaptureEffects(h, servers, o, true);
            && AllSafe(h, es, original)
            && (result.Some? ==> Inv(World(ApplyAll(h, es), result), original))
  {
    CaptureList(h, servers, o);
    if CaptureEffects(h, servers, o, true).0 != [] {
      JournalFirst(h, o.active.value, servers, original);
    }
  }

  lemma RecoveryIsSafe(h: Host, o: Outcomes, original: map<Service, Servers>)
    requires Recoverable(h, original)
    ensures var recovery := RecoveryEffects(h, o).0;
            AllSafe(h, recovery, original) && Recoverable(ApplyAll(h, recovery), original)
  {
    var recovery := RecoveryEffects(h, o).0;
    if recovery != [] {
      RestoreIsSafe(h, Override(h.journal.service, h.journal.dns, true), o.recover, o.removeOk, original);
    }
    assert recovery[..|recovery|] == recovery;
    SafeKeepsRecoverable(h, recovery, original, |recovery|);
  }

  lemma SafeOutcome(h: Host, es: seq<Effect>, result: Option<Override>, crashAfter: Option<nat>, original: map<Service, Servers>)
    requires Recoverable(h, original) && AllSafe(h, es, original)
    requires result.Some? ==> Inv(World(ApplyAll(h, es), result), original)
    ensures Inv(After(h, es, result, crashAfter), original)
  {
    assert es[..|es|] == es;
    SafeKeepsRecoverable(h, es, original, |es|);
    if crashAfter.Some? && crashAfter.value <= |es| {
      SafeKeepsRecoverable(h, es, original, crashAfter.value);
    }
  }

  /** Two safe lists in a row. */
  lemma SafeOutcomeOfBoth(h: Host, a: seq<Effect>, b: seq<Effect>, result: Option<Override>, crashAfter: Option<nat>,
                          original: map<Service, Servers>)
    requires Recoverable(h, original) && AllSafe(h, a, original) && AllSafe(ApplyAll(h, a), b, original)
    requires result.Some? ==> Inv(World(ApplyAll(ApplyAll(h, a), b), result), original)
    ensures Inv(After(h, a + b, result, crashAfter), original)
  {
    AllSafeConcat(h, a, b, original);
    ApplyConcat(h, a, b);
    SafeOutcome(h, a + b, result, crashAfter, original);
  }

  lemma OverrideKeepsInv(h: Host, servers: Servers, o: Outcomes, crashAfter: Option<nat>, original: map<Service, Servers>)
    requires Recoverable(h, original)
    ensures var (es, result) := OverridePlan(h, servers, o, true); Inv(After(h, es, result, crashAfter), original)
  {
    var (recovery, proceed) := RecoveryEffects(h, o);
    RecoveryIsSafe(h, o, original);
    if servers == [] || !o.ipv4 {
      SafeOutcome(h, [], None, crashAfter, original);
    } else if !proceed {
      SafeOutcome(h, recovery, None, crashAfter, original);
    } else {
      var (capture, result) := CaptureEffects(ApplyAll(h, recovery), servers, o, true);
      CaptureIsSafe(ApplyAll(h, recovery), servers, o, original);
      SafeOutcomeOfBoth(h, recovery, capture, result, crashAfter, original);
    }
  }

  lemma StepKeepsInv(w: World, op: Op, original: map<Service, Servers>)
    requires Inv(w, original)
    ensures Inv(Step(w, op, true), original)
  {
    match op
    case DoOverride(servers, o, crashAfter) =>
      if w.held.None? {
        OverrideKeepsInv(w.host, servers, o, crashAfter, original);
      }
    case DoRestore(c, removeOk, crashAfter) =>
      if w.held.Some? {
        RestoreIsSafe(w.host, w.held.value, c, removeOk, original);
        SafeOutcome(w.host, RestoreEffects(w.held.value, c, removeOk), None, crashAfter, original);
      }
    case Crash =>
  }

  /**
   The journal invariant, over every run of overrides, restores, failing commands and crashes
   that starts from the user's own configuration.
   */
  lemma {:induction false} JournalInvariant(original: map<Service, Servers>, ops: seq<Op>)
    ensures Inv(Run(World(Host(original, Absent), None), ops, true), original)
  {
    if ops != [] {
      JournalInvariant(original, ops[..|ops| - 1]);
      StepKeepsInv(Run(World(Host(original, Absent), None), ops[..|ops| - 1], true), ops[|ops| - 1], original);
    }
  }

  /** What an override captures as the original is the user's, never the VPN's own DNS. */
  lemma CapturedIsOriginal(original: map<Service, Servers>, ops: seq<Op>)
    ensures var w := Run(World(Host(original, Absent), None), ops, true);
            w.held.Some? ==> w.held.value.service in original
                             && w.held.value.originalDNS == original[w.held.value.service]
  {
    JournalInvariant(original, ops);
  }

  /** From every reachable state a successful restore, or recovery, gives every service its resolvers back. */
  lemma SuccessfulRestoreIsComplete(original: map<Service, Servers>, ops: seq<Op>, removeOk: bool)
    ensures var w := Run(World(Host(original, Absent), None), ops, true);
            && (w.held.Some? ==> Step(w, DoRestore(Succeeds, removeOk, None), true).host.dns == original)
            && (w.host.journal.Saved? ==>
                  ApplyAll(w.host, RestoreEffects(Override(w.host.journal.service, w.host.journal.dns, true), Succeeds, removeOk)).dns
                  == original)
            && (!w.host.journal.Saved? ==> w.host.dns == original)
  {
    JournalInvariant(original, ops);
    var w := Run(World(Host(original, Absent), None), ops, true);
    if w.held.Some? {
      RestoreIsSafe(w.host, w.held.value, Succeeds, removeOk, original);
    }
    if w.host.journal.Saved? {
      RestoreIsSafe(w.host, Override(w.host.journal.service, w.host.journal.dns, true), Succeeds, removeOk, original);
    }
  }

  /** A torn journal makes every override refuse, whatever else happens, without touching anything. */
  lemma TornJournalRefuses(h: Host, servers: Servers, o: Outcomes)
    requires h.journal.Torn?
    ensures OverridePlan(h, servers, o, true) == ([], None)
  {
    var none: seq<Effect> := [];
    assert none + none == none;
  }

  /** A crash between creating the journal and filling it leaves it torn. */
  lemma TornJournalReached(s: Service, mine: Servers, vpn: Servers) returns (ops: seq<Op>)
    requires vpn != []
    ensures var w := Run(World(Host(map[s := mine], Absent), None), ops, true);
            w.host == Host(map[s := mine], Torn) && w.held.None?
  {
    var w0 := World(Host(map[s := mine], Absent), None);
    var effects := OverridePlan(w0.host, vpn, Fine(s), true).0;
    var none: seq<Effect> := [];
    assert ApplyAll(w0.host, none) == w0.host;
    assert effects == [CreateJournal, FillJournal(s, mine), SetDns(s, vpn)];
    assert Prefix(effects, 1) == [CreateJournal];
    OneEffect(w0.host, CreateJournal);
    ops := RunMore(w0, [], DoOverride(vpn, Fine(s), Some(1)), true);
  }

  /** And it stays: no run of the program gets out of that state. */
  lemma {:induction false} TornForEver(w: World, ops: seq<Op>)
    requires w.host.journal.Torn? && w.held.None?
    ensures Run(w, ops, true) == w
  {
    if ops != [] {
      TornForEver(w, ops[..|ops| - 1]);
      if ops[|ops| - 1].DoOverride? {
        TornJournalRefuses(w.host, ops[|ops| - 1].servers, ops[|ops| - 1].o);
        var none: seq<Effect> := [];
        assert forall n: nat :: Prefix(none, n) == none;
      }
    }
  }

  /** Every operation that the override needs succeeds, and an active service is found. */
  predicate AllSucceed(h: Host, o: Outcomes) {
    && o.ipv4 && o.readOk && o.recover == Succeeds && o.removeOk && o.statOk
    && o.active.Some? && o.active.value in h.dns && o.getOk
    && o.mkdirOk && o.createOk && o.writeOk && o.closeOk && o.set_ == Succeeds
  }

  /** When all else succeeds an override is granted if and only if the journal, if there is one, is whole. */
  lemma GrantedUnlessTorn(h: Host, servers: Servers, o: Outcomes)
    requires servers != [] && AllSucceed(h, o)
    ensures OverridePlan(h, servers, o, true).1.Some? <==>
              !h.journal.Torn? && (h.journal.Saved? ==> h.journal.service != "")
  {
    OverrideMeaning(h, servers, o, true);
  }

  /** In every reachable state, then, a torn journal is the only thing that can block a granted override. */
  lemma ReachableGrant(original: map<Service, Servers>, ops: seq<Op>, servers: Servers, o: Outcomes)
    requires "" !in original && servers != []
    requires var w := Run(World(Host(original, Absent), None), ops, true); w.held.None? && AllSucceed(w.host, o)
    ensures var w := Run(World(Host(original, Absent), None), ops, true);
            Step(w, DoOverride(servers, o, None), true).held.Some? <==> !w.host.journal.Torn?
  {
    JournalInvariant(original, ops);
    GrantedUnlessTorn(Run(World(Host(original, Absent), None), ops, true).host, servers, o);
  }

  /** The outcomes of an override of s in which everything succeeds. */
  function Fine(s: Service): Outcomes {
    Outcomes(true, true, Succeeds, true, true, Some(s), true, true, true, true, true, Succeeds)
  }

  /**
   Without a journal path the next override captures the VPN's own DNS once a restore has failed:
   override, failed restore, override.
   */
  lemma UnjournaledCapturesVpnDns(s: Service, mine: Servers, vpn: Servers) returns (ops: seq<Op>)
    requires vpn != []
    ensures var w := Run(World(Host(map[s := mine], Absent), None), ops, false);
            w.held == Some(Override(s, vpn, false)) && s in w.host.dns && w.host.dns[s] == vpn
  {
    var start, restore := DoOverride(vpn, Fine(s), None), DoRestore(FailsUnapplied, true, None);
    var w0 := World(Host(map[s := mine], Absent), None);
    OverrideUnjournaled(w0.host, s, vpn);
    ops := RunMore(w0, [], start, false);
    var w1 := World(Host(map[s := vpn], Absent), Some(Override(s, mine, false)));
    assert Run(w0, ops, false) == w1;
    assert RestoreEffects(w1.held.value, FailsUnapplied, true) == [];
    ops := RunMore(w0, ops, restore, false);
    assert Run(w0, ops, false) == w1.(held := None);
    OverrideUnjournaled(w1.host, s, vpn);
    ops := RunMore(w0, ops, start, false);
  }

  lemma OverrideUnjournaled(h: Host, s: Service, vpn: Servers)
    requires s in h.dns && vpn != []
    ensures var (es, result) := OverridePlan(h, vpn, Fine(s), false);
            && es == [SetDns(s, vpn)] && result == Some(Override(s, h.dns[s], false))
            && ApplyAll(h, es) == h.(dns := h.dns[s := vpn])
  {
    OneEffect(h, SetDns(s, vpn));
  }

  lemma RunMore(w: World, ops: seq<Op>, op: Op, journaled: bool) returns (more: seq<Op>)
    ensures more == ops + [op] && Run(w, more, journaled) == Step(Run(w, ops, journaled), op, journaled)
  {
    more := ops + [op];
    assert more[..|ops|] == ops;
  }

  // ----- without a journal path: exactly when a capture is the user's own

  /** No journal is in use, and the known services are those of the user's configuration. */
  predicate Unjournaled(w: World, original: map<Service, Servers>) {
    && w.host.dns.Keys == original.Keys
    && (w.held.Some? ==> !w.held.value.journaled && w.held.value.service in original)
  }

  /** What one operation can change then: one service, set to the VPN's resolvers or to those in memory. */
  ghost predicate ChangesOne(w: World, op: Op, v: World) {
    match op
    case Crash => v == w.(held := None)
    case DoOverride(servers, o, _) =>
      if w.held.Some? then v == w
      else
        || (v.held.None? && v.host.dns == w.host.dns)
        || (o.active.Some? && o.active.value in w.host.dns
            && v.host.dns == w.host.dns[o.active.value := servers]
            && (v.held.None? || v.held.value == Override(o.active.value, w.host.dns[o.active.value], false)))
    case DoRestore(_, _, _) =>
      if w.held.None? then v == w
      else
        && v.held.None?
        && (v.host.dns == w.host.dns || v.host.dns == w.host.dns[w.held.value.service := w.held.value.originalDNS])
  }

  lemma UnjournaledPlan(h: Host, servers: Servers, o: Outcomes)
    ensures var (es, result) := OverridePlan(h, servers, o, false);
            || (es == [] && result.None?)
            || (o.active.Some? && o.active.value in h.dns && es == [SetDns(o.active.value, servers)]
                && (result.None? || result.value == Override(o.active.value, h.dns[o.active.value], false)))
  {
    if servers != [] && o.ipv4 {
      var capture := CaptureEffects(h, servers, o, false).0;
      assert [] + capture == capture;
    }
  }

  /** A list of at most one effect, cut by a crash or not, is applied as a whole or not at all. */
  lemma AllOrNothing(h: Host, es: seq<Effect>, crashAfter: Option<nat>)
    requires |es| <= 1
    ensures var after := After(h, es, None, crashAfter).host;
            after == h || (es != [] && after == Apply(h, es[0]))
  {
    if es != [] {
      assert es == [es[0]];
      OneEffect(h, es[0]);
      assert es[..0] == [];
    }
  }

  lemma UnjournaledOverride(h: Host, servers: Servers, o: Outcomes, crashAfter: Option<nat>)
    ensures var (es, result) := OverridePlan(h, servers, o, false);
            var v := After(h, es, result, crashAfter);
            || (v.held.None? && v.host.dns == h.dns)
            || (o.active.Some? && o.active.value in h.dns && v.host.dns == h.dns[o.active.value := servers]
                && (v.held.None? || v.held.value == Override(o.active.value, h.dns[o.active.value], false)))
  {
    UnjournaledPlan(h, servers, o);
    var (es, result) := OverridePlan(h, servers, o, false);
    AllOrNothing(h, es, crashAfter);
    if es != [] {
      assert es == [es[0]];
      OneEffect(h, es[0]);
    }
  }

  lemma UnjournaledRestore(h: Host, d: Override, c: Command, removeOk: bool, crashAfter: Option<nat>)
    requires !d.journaled
    ensures var v := After(h, RestoreEffects(d, c, removeOk), None, crashAfter);
            v.held.None? && (v.host.dns == h.dns || v.host.dns == h.dns[d.service := d.originalDNS])
  {
    assert RestoreEffects(d, c, removeOk) == SetEffects(c, d.service, d.originalDNS);
    AllOrNothing(h, RestoreEffects(d, c, removeOk), crashAfter);
  }

  lemma UnjournaledStep(w: World, op: Op, original: map<Service, Servers>)
    requires Unjournaled(w, original)
    ensures var v := Step(w, op, false); Unjournaled(v, original) && ChangesOne(w, op, v)
  {
    match op
    case DoOverride(servers, o, crashAfter) =>
      if w.held.None? {
        UnjournaledOverride(w.host, servers, o, crashAfter);
        SameServices(w, Step(w, op, false), op, original);
      }
    case DoRestore(c, removeOk, crashAfter) =>
      if w.held.Some? {
        UnjournaledRestore(w.host, w.held.value, c, removeOk, crashAfter);
        SameServices(w, Step(w, op, false), op, original);
      }
    case Crash =>
  }

  lemma SameServices(w: World, v: World, op: Op, original: map<Service, Servers>)
    requires Unjournaled(w, original) && ChangesOne(w, op, v)
    ensures Unjournaled(v, original)
  {
  }

  function RunPlain(original: map<Service, Servers>, ops: seq<Op>): World {
    Run(World(Host(original, Absent), None), ops, false)
  }

  lemma {:induction false} RunUnjournaled(original: map<Service, Servers>, ops: seq<Op>)
    ensures Unjournaled(RunPlain(original, ops), original)
  {
    if ops != [] {
      RunUnjournaled(original, ops[..|ops| - 1]);
      UnjournaledStep(RunPlain(original, ops[..|ops| - 1]), ops[|ops| - 1], original);
    }
  }

  /** The service does not have its own resolvers, and no override of it is in memory. */
  predicate LeftOverridden(w: World, own: Servers, s: Service) {
    s in w.host.dns && w.host.dns[s] != own && (w.held.Some? ==> w.held.value.service != s)
  }

  /** No state of the run, the last included, left the service overridden. */
  predicate NeverLeft(original: map<Service, Servers>, ops: seq<Op>, own: Servers, s: Service) {
    forall n | 0 <= n <= |ops| :: !LeftOverridden(RunPlain(original, ops[..n]), own, s)
  }

  /** As long as no override of a service was left unrestored, a capture of it is the user's own. */
  lemma {:induction false} UnjournaledCaptureIsOwn(original: map<Service, Servers>, ops: seq<Op>, s: Service)
    requires s in original && NeverLeft(original, ops, original[s], s)
    ensures var w := RunPlain(original, ops);
            w.held.Some? && w.held.value.service == s ==> w.held.value.originalDNS == original[s]
  {
    if ops != [] {
      var init, op := ops[..|ops| - 1], ops[|ops| - 1];
      assert forall n | 0 <= n <= |init| :: init[..n] == ops[..n];
      UnjournaledCaptureIsOwn(original, init, s);
      RunUnjournaled(original, init);
      UnjournaledStep(RunPlain(original, init), op, original);
      assert !LeftOverridden(RunPlain(original, ops[..|ops| - 1]), original[s], s);
    }
  }

  /** Neither the system nor the memory of the program has the user's resolvers. */
  predicate Lost(w: World, own: Servers, s: Service) {
    && s in w.host.dns && w.host.dns[s] != own
    && (w.held.Some? && w.held.value.service == s ==> w.held.value.originalDNS != own)
  }

  /** What the program sets is never what the user had. */
  predicate Foreign(ops: seq<Op>, own: Servers) {
    forall n | 0 <= n < |ops| && ops[n].DoOverride? :: ops[n].servers != own
  }

  lemma {:induction false} LostStaysLost(original: map<Service, Servers>, ops: seq<Op>, n: nat, own: Servers, s: Service)
    requires n <= |ops| && LeftOverridden(RunPlain(original, ops[..n]), own, s) && Foreign(ops, own)
    ensures Lost(RunPlain(original, ops), own, s)
  {
    if n == |ops| {
      assert ops[..n] == ops;
    } else {
      var init := ops[..|ops| - 1];
      assert init[..n] == ops[..n];
      assert forall k | 0 <= k < |init| :: init[k] == ops[k];
      LostStaysLost(original, init, n, own, s);
      RunUnjournaled(original, init);
      UnjournaledStep(RunPlain(original, init), ops[|ops| - 1], original);
    }
  }

  /**
   Without a journal path, for VPN resolvers that are not the user's own: what an override of a
   service holds as the original is the user's if and only if no earlier state left the service
   overridden with no override of it in memory, after a failed restore, a failed command or a crash.
   */
  lemma UnjournaledCaptureIff(original: map<Service, Servers>, ops: seq<Op>, s: Service)
    requires s in original && Foreign(ops, original[s])
    requires var w := RunPlain(original, ops); w.held.Some? && w.held.value.service == s
    ensures RunPlain(original, ops).held.value.originalDNS == original[s] <==> NeverLeft(original, ops, original[s], s)
  {
    if NeverLeft(original, ops, original[s], s) {
      UnjournaledCaptureIsOwn(original, ops, s);
    } else {
      var n :| 0 <= n <= |ops| && LeftOverridden(RunPlain(original, ops[..n]), original[s], s);
      LostStaysLost(original, ops, n, original[s], s);
    }
  }
}

/** How a member's data directory is prepared at every pod start: the init container's
script, the primary endpoint it is given, and who can come up as a primary. */
module Bootstrap {
  import opened Basics
  import opened PodNames

  /** The files the script decides on; `conninfo` are the lines it appended. */
  datatype Files = Files(initialized: bool, standby: bool, promoted: bool, restart: bool, conninfo: seq<string>)

  const EMPTY := Files(false, false, false, false, [])

  /** The container's environment. `backup` is what pg_basebackup brings: nothing when it
      fails, otherwise whether the primary's directory held the promoted marker. */
  datatype Env = Env(endpoint: string, pod: string, members: int, replicaCluster: bool, backup: Option<bool>)

  datatype Boot = Boot(files: Files, ok: bool, initdb: bool)

  /** The endpoint without its port. */
  function Host(endpoint: string): string {
    var i := LastIndex(endpoint, ':', |endpoint|);
    if i < 0 then endpoint else endpoint[..i]
  }

  /** The endpoint is of that pod. */
  predicate Names(endpoint: string, pod: string) {
    endpoint != "" && (Host(endpoint) == pod || pod + "." <= Host(endpoint))
  }

  predicate IsSelf(e: Env) {
    Names(e.endpoint, e.pod)
  }

  function Follow(f: Files, e: Env): Files {
    f.(standby := true, conninfo := f.conninfo + [e.endpoint])
  }

  function Start(f: Files, e: Env): Boot {
    if f.initialized then
      var host := Host(e.endpoint);
      if e.replicaCluster && host != "" && !f.standby then Boot(Follow(f, e), true, false)
      else if e.members > 1 && host != "" && !IsSelf(e) && !f.standby && f.promoted then Boot(f, true, false)
      else if e.members > 1 && host != "" && !IsSelf(e) && !f.standby then
        Boot(Follow(f, e).(restart := true), true, false)
      else Boot(f, true, false)
    else if e.replicaCluster then
      if e.endpoint == "" || e.backup.None? then Boot(f, false, false)
      else Boot(Follow(Files(true, false, e.backup.value, false, []), e), true, false)
    else if e.endpoint != "" && !IsSelf(e) then
      if e.backup.None? then Boot(f, false, false)
      else Boot(Follow(Files(true, false, e.backup.value, false, []), e), true, false)
    else if Ordinal(e.pod) == "0" then Boot(Files(true, false, false, false, []), true, true)
    else Boot(f, false, false)
  }

  /** The script itself, changing the directory file by file. */
  class DataDirectory {
    var initialized: bool
    var standby: bool
    var promoted: bool
    var restart: bool
    var conninfo: seq<string>

    ghost function View(): Files
      reads this
    {
      Files(initialized, standby, promoted, restart, conninfo)
    }

    method MarkStandby(e: Env)
      modifies this`standby, this`conninfo
      ensures View() == Follow(old(View()), e)
    {
      standby := true;
      conninfo := conninfo + [e.endpoint];
    }

    method BaseBackup(e: Env) returns (ok: bool)
      modifies this
      ensures ok <==> e.backup.Some?
      ensures View() == if ok then Follow(Files(true, false, e.backup.value, false, []), e) else old(View())
    {
      ok := e.backup.Some?;
      if ok {
        initialized, standby, promoted, restart, conninfo := true, false, e.backup.value, false, [];
        MarkStandby(e);
      }
    }

    method Run(e: Env) returns (ok: bool, initdb: bool)
      modifies this
      ensures Boot(View(), ok, initdb) == Start(old(View()), e)
    {
      ok, initdb := true, false;
      var host := "";
      var self := false;
      if e.endpoint != "" {
        host := Host(e.endpoint);
        self := host == e.pod || e.pod + "." <= host;
      }
      assert e.endpoint == "" ==> Host(e.endpoint) == "";
      if initialized {
        if e.replicaCluster && host != "" && !standby {
          MarkStandby(e);
        } else if e.members > 1 && host != "" && !self && !standby && promoted {
        } else if e.members > 1 && host != "" && !self && !standby {
          MarkStandby(e);
          restart := true;
        }
        return;
      }
      if e.replicaCluster {
        if e.endpoint == "" { return false, false; }
        ok := BaseBackup(e);
        return;
      }
      if e.endpoint != "" && !self {
        ok := BaseBackup(e);
      } else if Ordinal(e.pod) == "0" {
        initialized, standby, promoted, restart, conninfo := true, false, false, false, [];
        initdb := true;
      } else {
        ok := false;
      }
    }
  }

  // ---------------------------------------------------------------------------
  // One start.

  /** Repeating a successful start changes nothing and never initialises again. */
  lemma StartTwice(f: Files, e: Env)
    requires Start(f, e).ok
    ensures Start(Start(f, e).files, e) == Boot(Start(f, e).files, true, false)
  {
  }

  /** A start runs initdb exactly on pod 0 of a StatefulSet with an empty directory, outside a
      replica cluster, when no other primary is named; and it fails exactly when the directory is
      empty and there is nothing to fill it from. */
  lemma InitdbIsOrdinalZero(sts: string, k: nat, f: Files, e: Env)
    requires e.pod == PodOf(sts, k)
    ensures var other := e.endpoint != "" && !IsSelf(e);
      && (Start(f, e).initdb <==> k == 0 && !f.initialized && !e.replicaCluster && !other)
      && (Start(f, e).ok <==>
            f.initialized || if e.replicaCluster then e.endpoint != "" && e.backup.Some?
                             else if other then e.backup.Some? else k == 0)
  {
    OrdinalOfPod(sts, k);
    assert Decimal(0) == "0";
    if Ordinal(e.pod) == "0" { DecimalInjective(k, 0); }
  }

  /** An empty directory is initialised, or follows the endpoint with a copy of its data. */
  lemma EmptyFollows(f: Files, e: Env)
    requires !f.initialized && Start(f, e).ok
    ensures Start(f, e).files ==
      if Start(f, e).initdb then Files(true, false, false, false, [])
      else Files(true, true, if e.backup.Some? then e.backup.value else false, false, [e.endpoint])
  {
  }

  /** A member that has its data is made a standby: another primary is named and it holds no promoted
      marker, or it is in a replica cluster. */
  predicate Turns(f: Files, e: Env) {
    !f.standby && Host(e.endpoint) != "" && (e.replicaCluster || (e.members > 1 && !IsSelf(e) && !f.promoted))
  }

  /** It then follows the endpoint, and is restarted unless in a replica cluster; nothing else in
      its directory changes. */
  lemma StartFollows(f: Files, e: Env)
    requires f.initialized
    ensures Start(f, e) == Boot(
      if Turns(f, e) then
        f.(standby := true, conninfo := f.conninfo + [e.endpoint], restart := f.restart || !e.replicaCluster)
      else f, true, false)
  {
  }

  /** The endpoint the operator builds for a pod. */
  function EndpointOf(pod: string, domain: string): string {
    pod + "." + domain + ":5432"
  }

  /** The host is what stands before the last colon, and all of it if there is none. */
  lemma {:induction false} HostCutsPort(host: string, port: string)
    requires ':' !in port
    ensures Host(host + ":" + port) == host && Host(port) == port
  {
    var s := host + ":" + port;
    LastColon(port, |port|);
    assert s[|host|] == ':' && forall j :: |host| < j < |s| ==> s[j] == port[j - |host| - 1];
    LastColonAt(s, |host|, |s|);
  }

  lemma {:induction false} LastColon(s: string, n: nat)
    requires n <= |s| && ':' !in s
    ensures LastIndex(s, ':', n) < 0
  {
    if n > 0 { LastColon(s, n - 1); }
  }

  lemma {:induction false} LastColonAt(s: string, i: nat, n: nat)
    requires i < n <= |s| && s[i] == ':' && forall j :: i < j < n ==> s[j] != ':'
    ensures LastIndex(s, ':', n) == i
  {
    if i < n - 1 { LastColonAt(s, i, n - 1); }
  }

  lemma HostOfEndpoint(pod: string, domain: string)
    ensures Host(EndpointOf(pod, domain)) == pod + "." + domain
  {
    var s := EndpointOf(pod, domain);
    var n := |pod + "." + domain|;
    assert s[n] == ':' && s[n + 1..] == "5432" && |s| == n + 5;
    assert forall j :: n < j < |s| ==> s[j] == "5432"[j - n - 1];
    assert LastIndex(s, ':', |s|) == n;
  }

  /** An endpoint built for a pod of the StatefulSet names a pod itself exactly when it is
      that pod. */
  lemma SelfIsSameOrdinal(sts: string, j: nat, k: nat, domain: string, e: Env)
    requires e.pod == PodOf(sts, k) && e.endpoint == EndpointOf(PodOf(sts, j), domain)
    ensures IsSelf(e) <==> j == k
  {
    HostOfEndpoint(PodOf(sts, j), domain);
    var host := PodOf(sts, j) + "." + domain;
    assert host == (sts + "-") + (Decimal(j) + "." + domain);
    assert e.pod + "." == (sts + "-") + (Decimal(k) + ".");
    PrefixCancel(sts + "-", Decimal(k) + ".", Decimal(j) + "." + domain);
    NumberPrefix(k, j, '.', domain);
    assert host[|sts + "-" + Decimal(j)|] == '.';
    DecimalDigits(k);
    assert e.pod == (sts + "-") + Decimal(k);
    assert host != e.pod;
  }

  // ---------------------------------------------------------------------------
  // The endpoint.

  /** A recorded shard status: its ordinal and, if a primary is recorded, that primary's pod
      and endpoint. */
  datatype Recorded = Recorded(ordinal: int, primary: Option<(string, string)>)

  /** The endpoint given to the pods of shard `ordinal`; `source` is the external source of
      a replica cluster. */
  function PrimaryEndpoint(shards: seq<Recorded>, ordinal: nat, cluster: string, domain: string, replicas: int,
                           source: Option<string>, hibernating: bool): string
  {
    if source.Some? then source.value
    else if hibernating then ""
    else FromStatus(shards, ordinal, cluster, domain, replicas)
  }

  function FromStatus(shards: seq<Recorded>, ordinal: nat, cluster: string, domain: string, replicas: int): string {
    if shards == [] then
      if replicas > 0 then EndpointOf(PodOf(StatefulSet(cluster, ordinal), 0), domain) else ""
    else
      var s := shards[0];
      if s.ordinal == ordinal && s.primary.Some? && s.primary.value.1 != "" then s.primary.value.1
      else if s.ordinal == ordinal && s.primary.Some? && s.primary.value.0 != "" then
        EndpointOf(s.primary.value.0, domain)
      else FromStatus(shards[1..], ordinal, cluster, domain, replicas)
  }

  /** The status records a primary of the shard. */
  predicate Known(s: Recorded, ordinal: nat) {
    s.ordinal == ordinal && s.primary.Some? && (s.primary.value.0 != "" || s.primary.value.1 != "")
  }

  /** What the pods of a shard are given, in every case: the external source of a replica cluster;
      else nothing when hibernating; else the first primary recorded for the shard, by its endpoint
      or else by its name; and without one pod 0, if the shard is to have pods. */
  lemma {:induction false} EndpointIsFirstKnown(shards: seq<Recorded>, ordinal: nat, cluster: string, domain: string,
                                                replicas: int, i: nat)
    requires i <= |shards| && (forall j :: 0 <= j < i ==> !Known(shards[j], ordinal))
    requires i < |shards| ==> Known(shards[i], ordinal)
    ensures forall x: string, h: bool :: PrimaryEndpoint(shards, ordinal, cluster, domain, replicas, Some(x), h) == x
    ensures PrimaryEndpoint(shards, ordinal, cluster, domain, replicas, None, true) == ""
    ensures PrimaryEndpoint(shards, ordinal, cluster, domain, replicas, None, false) ==
      if i < |shards| then
        var (pod, endpoint) := shards[i].primary.value;
        if endpoint != "" then endpoint else EndpointOf(pod, domain)
      else if replicas > 0 then EndpointOf(PodOf(StatefulSet(cluster, ordinal), 0), domain)
      else ""
  {
    if i > 0 {
      EndpointIsFirstKnown(shards[1..], ordinal, cluster, domain, replicas, i - 1);
      assert !Known(shards[0], ordinal);
    }
  }

  /** For a shard with replicas that is not hibernating the endpoint is never empty; without
      a recorded primary it is pod 0's. */
  lemma {:induction false} EndpointIsNeverEmpty(shards: seq<Recorded>, ordinal: nat, cluster: string, domain: string,
                                                replicas: int)
    requires replicas > 0
    ensures PrimaryEndpoint(shards, ordinal, cluster, domain, replicas, None, false) != ""
    ensures (forall s :: s in shards && s.ordinal == ordinal ==> s.primary.None?) ==>
      PrimaryEndpoint(shards, ordinal, cluster, domain, replicas, None, false)
        == EndpointOf(PodOf(StatefulSet(cluster, ordinal), 0), domain)
  {
    if shards != [] {
      EndpointIsNeverEmpty(shards[1..], ordinal, cluster, domain, replicas);
      assert shards[0] in shards && forall s :: s in shards[1..] ==> s in shards;
    }
  }

  // ---------------------------------------------------------------------------
  // Runs: starts, promotions and reseeds of the members of one shard.

  /** A member: its directory and, from its last successful start, whether the endpoint then
      named the member itself. */
  datatype Member = Member(files: Files, startedAsSelf: Option<bool>)

  datatype Event =
    | StartPod(ordinal: nat, env: Env)
    | PromotePod(ordinal: nat)
    | WipeVolume(ordinal: nat)

  function Get(ms: map<nat, Member>, k: nat): Member {
    if k in ms then ms[k] else Member(EMPTY, None)
  }

  /** Starts happen with a non-empty endpoint, as the operator gives every shard with
      replicas. */
  function Next(sts: string, ms: map<nat, Member>, ev: Event): map<nat, Member> {
    match ev
    case StartPod(k, env) =>
      if env.pod != PodOf(sts, k) || env.replicaCluster || env.members <= 1 || Host(env.endpoint) == "" then ms
      else
        var b := Start(Get(ms, k).files, env);
        ms[k := Member(b.files, if b.ok then Some(IsSelf(env)) else Get(ms, k).startedAsSelf)]
    case PromotePod(k) =>
      if !Get(ms, k).files.initialized then ms
      else ms[k := Get(ms, k).(files := Get(ms, k).files.(standby := false, restart := false, promoted := true))]
    case WipeVolume(k) => ms[k := Member(EMPTY, None)]
  }

  function Run(sts: string, ms: map<nat, Member>, evs: seq<Event>): map<nat, Member> {
    if evs == [] then ms else Next(sts, Run(sts, ms, evs[..|evs| - 1]), evs[|evs| - 1])
  }

  /** A started member without standby.signal was promoted, or its last start named it. */
  ghost predicate Legitimate(m: Member) {
    m.startedAsSelf.Some? && !m.files.standby ==> m.files.promoted || m.startedAsSelf.value
  }

  /** Over any run of starts, promotions and wipes, with any endpoints in between. */
  lemma {:induction false} OnlyNamedOrPromotedLead(sts: string, evs: seq<Event>, k: nat)
    ensures Legitimate(Get(Run(sts, map[], evs), k))
  {
    if evs != [] {
      var before := evs[..|evs| - 1];
      OnlyNamedOrPromotedLead(sts, before, k);
      NextLegitimate(sts, Run(sts, map[], before), evs[|evs| - 1], k);
    }
  }

  lemma NextLegitimate(sts: string, ms: map<nat, Member>, ev: Event, k: nat)
    requires Legitimate(Get(ms, k))
    ensures Legitimate(Get(Next(sts, ms, ev), k))
  {
    if ev.StartPod? && ev.ordinal == k {
      var e := ev.env;
      if !e.replicaCluster && e.members > 1 && Host(e.endpoint) != "" { StartLegitimate(Get(ms, k), e); }
    }
  }

  lemma StartLegitimate(m: Member, e: Env)
    requires !e.replicaCluster && e.members > 1 && Host(e.endpoint) != "" && Legitimate(m)
    ensures var b := Start(m.files, e);
      Legitimate(Member(b.files, if b.ok then Some(IsSelf(e)) else m.startedAsSelf))
  {
  }

  /** Under one endpoint that names member `p`, in every state of any run a member started
      and without standby.signal is `p` or holds the promoted marker. */
  lemma {:induction false} OneLeaderPerEndpoint(sts: string, domain: string, p: nat, evs: seq<Event>, k: nat)
    requires forall i :: 0 <= i < |evs| && evs[i].StartPod? ==> evs[i].env.endpoint == EndpointOf(PodOf(sts, p), domain)
    ensures var m := Get(Run(sts, map[], evs), k);
      && (m.startedAsSelf.Some? && !m.files.standby ==> m.files.promoted || k == p)
      && (m.startedAsSelf.Some? ==> m.startedAsSelf.value == (k == p))
  {
    OnlyNamedOrPromotedLead(sts, evs, k);
    if evs != [] {
      var last := evs[|evs| - 1];
      var before := evs[..|evs| - 1];
      OneLeaderPerEndpoint(sts, domain, p, before, k);
      if last.StartPod? && last.env.pod == PodOf(sts, last.ordinal) {
        SelfIsSameOrdinal(sts, p, last.ordinal, domain, last.env);
      }
    }
  }

  /** No line of the directory names the member itself, and a standby has one. */
  ghost predicate FollowsOthers(sts: string, k: nat, f: Files) {
    && (forall x :: x in f.conninfo ==> !Names(x, PodOf(sts, k)))
    && (f.standby ==> f.conninfo != [])
  }

  /** Over any run no member follows itself, and a member that is a standby follows some endpoint. */
  lemma {:induction false} NeverFollowsItself(sts: string, evs: seq<Event>, k: nat)
    ensures FollowsOthers(sts, k, Get(Run(sts, map[], evs), k).files)
  {
    if evs != [] {
      var before, ev := evs[..|evs| - 1], evs[|evs| - 1];
      NeverFollowsItself(sts, before, k);
      var m := Get(Run(sts, map[], before), k);
      if ev.StartPod? && ev.ordinal == k && ev.env.pod == PodOf(sts, k) && !ev.env.replicaCluster
      {
        StartFollowsOthers(sts, k, m.files, ev.env);
      }
    }
  }

  lemma StartFollowsOthers(sts: string, k: nat, f: Files, e: Env)
    requires e.pod == PodOf(sts, k) && !e.replicaCluster && FollowsOthers(sts, k, f)
    ensures FollowsOthers(sts, k, Start(f, e).files)
  {
    if f.initialized {
      StartFollows(f, e);
    } else if Start(f, e).ok {
      EmptyFollows(f, e);
    }
  }

  // ---------------------------------------------------------------------------
  // A new shard, and a promoted member.

  /** The member leads: it has data, it is no standby, and it holds the promoted marker. */
  predicate LeadsPromoted(f: Files) {
    f.initialized && !f.standby && f.promoted && !f.restart
  }

  /** A promoted member leads through any later starts, whichever primary they name, until its
      volume is wiped. */
  lemma {:induction false} PromotedKeepsLead(sts: string, ms: map<nat, Member>, k: nat, evs: seq<Event>)
    requires Get(ms, k).files.initialized && forall i :: 0 <= i < |evs| ==> evs[i] != WipeVolume(k)
    ensures LeadsPromoted(Get(Run(sts, Next(sts, ms, PromotePod(k)), evs), k).files)
  {
    if evs != [] {
      var before, ev := evs[..|evs| - 1], evs[|evs| - 1];
      PromotedKeepsLead(sts, ms, k, before);
      if ev.StartPod? && ev.ordinal == k {
        StartFollows(Get(Run(sts, Next(sts, ms, PromotePod(k)), before), k).files, ev.env);
      }
    }
  }

  /** A start of one of several members under the endpoint of pod 0, with a copy to be had of data
      without the marker. */
  predicate FirstStart(sts: string, domain: string, ev: Event) {
    && ev.StartPod? && ev.env.pod == PodOf(sts, ev.ordinal) && ev.env.members > 1 && !ev.env.replicaCluster
    && ev.env.endpoint == EndpointOf(PodOf(sts, 0), domain) && ev.env.backup == Some(false)
  }

  ghost predicate Started(evs: seq<Event>, k: nat) {
    exists i :: 0 <= i < |evs| && evs[i].StartPod? && evs[i].ordinal == k
  }

  /** A new shard whose members start in any order and as often as they like: pod 0 has initialised
      and leads, and every other started member is a standby that follows pod 0. */
  lemma {:induction false} NewShardFollowsPodZero(sts: string, domain: string, evs: seq<Event>, k: nat)
    requires forall i :: 0 <= i < |evs| ==> FirstStart(sts, domain, evs[i])
    ensures Get(Run(sts, map[], evs), k) ==
      if !Started(evs, k) then Member(EMPTY, None)
      else if k == 0 then Member(Files(true, false, false, false, []), Some(true))
      else Member(Files(true, true, false, false, [EndpointOf(PodOf(sts, 0), domain)]), Some(false))
  {
    if evs != [] {
      var before, ev := evs[..|evs| - 1], evs[|evs| - 1];
      NewShardFollowsPodZero(sts, domain, before, k);
      assert FirstStart(sts, domain, ev);
      if ev.ordinal == k {
        assert Started(evs, k);
        NewMemberStarts(sts, domain, Get(Run(sts, map[], before), k).files, ev);
      } else {
        assert Started(evs, k) <==> Started(before, k);
      }
    }
  }

  lemma NewMemberStarts(sts: string, domain: string, f: Files, ev: Event)
    requires FirstStart(sts, domain, ev)
    requires f == EMPTY || f == if ev.ordinal == 0 then Files(true, false, false, false, [])
                                else Files(true, true, false, false, [EndpointOf(PodOf(sts, 0), domain)])
    ensures Host(ev.env.endpoint) != "" && (IsSelf(ev.env) <==> ev.ordinal == 0)
    ensures Start(f, ev.env).ok && Start(f, ev.env).files ==
      if ev.ordinal == 0 then Files(true, false, false, false, [])
      else Files(true, true, false, false, [EndpointOf(PodOf(sts, 0), domain)])
  {
    SelfIsSameOrdinal(sts, 0, ev.ordinal, domain, ev.env);
    HostOfEndpoint(PodOf(sts, 0), domain);
    InitdbIsOrdinalZero(sts, ev.ordinal, f, ev.env);
    if f.initialized { StartFollows(f, ev.env); } else { EmptyFollows(f, ev.env); }
  }
}

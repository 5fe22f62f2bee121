/**
 RestoreJob: which backup hosts each host of the target cluster restores from. Matching clusters are
 paired host by host, with or without regard to racks; otherwise the backups are dealt out in turn.
 */
module RestoreMapping {
  import opened Text
  import opened Ordering
  import opened Ring

  datatype Entry = Entry(source: seq<string>, seed: bool)

  type HostMap = map<string, Entry>

  // ---------------------------------------------------------------- token texts

  function TokenText(token: int): string { if token < 0 then "-" + Decimal(-token) else Decimal(token) }

  function TokenTexts(tokens: seq<int>): (r: seq<string>)
    ensures |r| == |tokens|
  {
    if tokens == [] then [] else TokenTexts(tokens[..|tokens| - 1]) + [TokenText(tokens[|tokens| - 1])]
  }

  /** _tokens_from_ringitem. */
  function TokensKey(tokens: seq<int>): string { Join(TokenTexts(tokens), ',') }

  function TokenKeys(ring: seq<Node>): set<string> { set n | n in ring :: TokensKey(n.tokens) }

  // ---------------------------------------------------------------- racks

  function Codes(s: string): seq<int> { seq(|s|, i requires 0 <= i < |s| => s[i] as int) }

  /** setdefault(rack, []).append(host). */
  function AddHost(groups: seq<Keyed<seq<string>>>, rack: seq<int>, host: string): seq<Keyed<seq<string>>> {
    if groups == [] then [Keyed(rack, [host])]
    else if groups[0].key == rack then [Keyed(rack, groups[0].item + [host])] + groups[1..]
    else [groups[0]] + AddHost(groups[1..], rack, host)
  }

  function Grouped(ring: seq<Node>): seq<Keyed<seq<string>>> {
    if ring == [] then []
    else AddHost(Grouped(ring[..|ring| - 1]), Codes(ring[|ring| - 1].rack), ring[|ring| - 1].host)
  }

  /** _tokenmap_to_nodes_per_rack: racks in alphabetical order, hosts of each in dictionary order. */
  function Racks(ring: seq<Node>): seq<Keyed<seq<string>>> { Sort(Grouped(ring)) }

  function Topology(racks: seq<Keyed<seq<string>>>): (r: seq<nat>)
    ensures |r| == |racks|
    ensures forall i :: 0 <= i < |r| ==> r[i] == |racks[i].item|
  {
    seq(|racks|, i requires 0 <= i < |racks| => |racks[i].item|)
  }

  function Flat(groups: seq<Keyed<seq<string>>>): seq<string> {
    if groups == [] then [] else Flat(groups[..|groups| - 1]) + groups[|groups| - 1].item
  }

  /** All hosts, rack by rack. */
  function RackHosts(ring: seq<Node>): (r: seq<string>)
    ensures |r| == |ring|
  {
    RackHostsKept(ring);
    Flat(Racks(ring))
  }

  function HostList(ring: seq<Node>): (r: seq<string>)
    ensures |r| == |ring|
    ensures forall i :: 0 <= i < |ring| ==> r[i] == ring[i].host
  {
    seq(|ring|, i requires 0 <= i < |ring| => ring[i].host)
  }

  lemma {:induction false} FlatConcat(a: seq<Keyed<seq<string>>>, b: seq<Keyed<seq<string>>>)
    ensures Flat(a + b) == Flat(a) + Flat(b)
  {
    if b == [] {
      assert a + b == a;
    } else {
      assert (a + b)[..|a + b| - 1] == a + b[..|b| - 1];
      FlatConcat(a, b[..|b| - 1]);
      assert Flat(a) + Flat(b[..|b| - 1]) + b[|b| - 1].item == Flat(a) + (Flat(b[..|b| - 1]) + b[|b| - 1].item);
    }
  }

  lemma FlatOne(g: Keyed<seq<string>>)
    ensures Flat([g]) == g.item
  {
    assert [g][..0] == [] && Flat([g][..0]) == [];
  }

  lemma {:induction false} AddHostKeeps(groups: seq<Keyed<seq<string>>>, rack: seq<int>, host: string)
    ensures multiset(Flat(AddHost(groups, rack, host))) == multiset(Flat(groups)) + multiset{host}
  {
    hide Flat;
    FlatOne(Keyed(rack, [host]));
    if groups == [] {
      FlatNothing();
    } else {
      var head, tail := groups[0], groups[1..];
      assert groups == [head] + tail;
      FlatConcat([head], tail);
      FlatOne(head);
      if head.key == rack {
        var grown := Keyed(rack, head.item + [host]);
        FlatConcat([grown], tail);
        FlatOne(grown);
      } else {
        AddHostKeeps(tail, rack, host);
        FlatConcat([head], AddHost(tail, rack, host));
      }
    }
  }

  lemma FlatNothing()
    ensures Flat([]) == []
  {
  }

  lemma {:induction false} GroupedKeeps(ring: seq<Node>)
    ensures multiset(Flat(Grouped(ring))) == multiset(HostList(ring))
  {
    hide Flat, AddHost, Codes;
    FlatNothing();
    if ring != [] {
      var front, last := ring[..|ring| - 1], ring[|ring| - 1];
      GroupedKeeps(front);
      AddHostKeeps(Grouped(front), Codes(last.rack), last.host);
      assert HostList(ring) == HostList(front) + [last.host];
    }
  }

  lemma {:induction false} InsertFlat(s: seq<Keyed<seq<string>>>, x: Keyed<seq<string>>)
    ensures multiset(Flat(Insert(s, x))) == multiset(Flat(s)) + multiset(x.item)
  {
    hide Flat, LexLe;
    FlatOne(x);
    FlatNothing();
    if s != [] {
      var front, last := s[..|s| - 1], s[|s| - 1];
      assert s == front + [last];
      FlatConcat(front, [last]);
      FlatOne(last);
      FlatConcat(s, [x]);
      InsertFlat(front, x);
      FlatConcat(Insert(front, x), [last]);
    }
  }

  lemma {:induction false} SortFlat(s: seq<Keyed<seq<string>>>)
    ensures multiset(Flat(Sort(s))) == multiset(Flat(s))
  {
    hide Flat, Insert;
    if s != [] {
      var front, last := s[..|s| - 1], s[|s| - 1];
      assert s == front + [last];
      SortFlat(front);
      InsertFlat(Sort(front), last);
      FlatConcat(front, [last]);
      FlatOne(last);
    }
  }

  /** Grouping and sorting racks keeps every host exactly once. */
  lemma RackHostsKept(ring: seq<Node>)
    ensures multiset(Flat(Racks(ring))) == multiset(HostList(ring)) && |Flat(Racks(ring))| == |ring|
  {
    hide Flat, Sort, Grouped;
    GroupedKeeps(ring);
    SortFlat(Grouped(ring));
    assert |multiset(Flat(Racks(ring)))| == |multiset(HostList(ring))|;
  }

  // ---------------------------------------------------------------- sorted by token

  predicate AllTokens(ring: seq<Node>) { forall n :: n in ring ==> n.tokens != [] }

  function ByFirstToken(ring: seq<Node>): (r: seq<Keyed<string>>)
    requires AllTokens(ring)
    ensures |r| == |ring|
  {
    seq(|ring|, i requires 0 <= i < |ring| => assert ring[i] in ring; Keyed([ring[i].tokens[0]], ring[i].host))
  }

  function Names(s: seq<Keyed<string>>): (r: seq<string>)
    ensures |r| == |s|
    ensures forall i :: 0 <= i < |s| ==> r[i] == s[i].item
  {
    seq(|s|, i requires 0 <= i < |s| => s[i].item)
  }

  /** _tokenmap_to_sorted_nodes. */
  function SortedHosts(ring: seq<Node>): (r: seq<string>)
    requires AllTokens(ring)
    ensures |r| == |ring|
  {
    SortSorts(ByFirstToken(ring));
    Names(Sort(ByFirstToken(ring)))
  }

  // ---------------------------------------------------------------- pairing and dealing

  /** host_map after one entry for each target in turn. */
  function Zip(targets: seq<string>, entries: seq<Entry>): HostMap
    requires |targets| == |entries|
  {
    if targets == [] then map[]
    else Zip(targets[..|targets| - 1], entries[..|targets| - 1])[targets[|targets| - 1] := entries[|targets| - 1]]
  }

  function Single(target: string, source: string, seeds: set<string>): Entry { Entry([source], target in seeds) }

  function Singles(targets: seq<string>, sources: seq<string>, seeds: set<string>): (r: seq<Entry>)
    requires |targets| <= |sources|
    ensures |r| == |targets|
    ensures forall i :: 0 <= i < |r| ==> r[i] == Single(targets[i], sources[i], seeds)
  {
    seq(|targets|, i requires 0 <= i < |targets| => Single(targets[i], sources[i], seeds))
  }

  /** Each target paired with the source at the same position. */
  function Paired(targets: seq<string>, sources: seq<string>, seeds: set<string>): HostMap
    requires |targets| <= |sources|
  {
    Zip(targets, Singles(targets, sources, seeds))
  }

  /** How many of the first n positions are dealt to group g of nb. */
  function Share(n: nat, g: nat, nb: nat): nat
    requires g < nb
  {
    if n == 0 then 0 else Share(n - 1, g, nb) + if (n - 1) % nb == g then 1 else 0
  }

  /** The elements dealt to group g when the first n are dealt to nb groups in turn. */
  function Dealt(hosts: seq<string>, n: nat, g: nat, nb: nat): (r: seq<string>)
    requires n <= |hosts| && g < nb
    ensures |r| == Share(n, g, nb)
  {
    if n == 0 then []
    else if (n - 1) % nb == g then Dealt(hosts, n - 1, g, nb) + [hosts[n - 1]]
    else Dealt(hosts, n - 1, g, nb)
  }

  function Chunks(hosts: seq<string>, nb: nat): (r: seq<seq<string>>)
    ensures |r| == nb
  {
    seq(nb, g requires 0 <= g < nb => Dealt(hosts, |hosts|, g, nb))
  }

  function Groups(chunks: seq<seq<string>>): (r: seq<Entry>)
    ensures |r| == |chunks|
    ensures forall i :: 0 <= i < |r| ==> r[i] == Entry(chunks[i], false)
  {
    seq(|chunks|, i requires 0 <= i < |chunks| => Entry(chunks[i], false))
  }

  function GroupCount(backups: nat, targets: nat): nat { if backups >= targets then targets else backups }

  /** The map of the sstableloader fallback; the orders are those of two Python sets. */
  function DealtMap(backups: seq<string>, targets: seq<string>): HostMap {
    var nb := GroupCount(|backups|, |targets|);
    Zip(targets[..nb], Groups(Chunks(backups, nb)))
  }

  // ---------------------------------------------------------------- the decision

  datatype Decision = NotUp | Crash | Fallback | ByToken | ByRack

  function FirstCount(ring: seq<Node>): Option<nat> { if ring == [] then None else Some(|ring[0].tokens|) }

  predicate AllUp(ring: seq<Node>) { forall n :: n in ring ==> n.up }

  /** What _populate_ringmap does: Crash is an IndexError or ZeroDivisionError that escapes. */
  function Decide(ring: seq<Node>, target: seq<Node>, ignoreRacks: bool): (d: Decision)
    ensures d == ByToken || d == ByRack ==> |ring| == |target| && AllTokens(ring) && AllTokens(target)
  {
    if !AllUp(target) then NotUp
    else if |ring| != |target| then (if target == [] then Crash else Fallback)
    else if !(AllTokens(ring) && AllTokens(target)) && (!ignoreRacks || !FallsBack(ring, target)) then Crash
    else if !ignoreRacks && Topology(Racks(ring)) != Topology(Racks(target)) then Fallback
    else if FallsBack(ring, target) then Fallback
    else if ignoreRacks then ByToken
    else ByRack
  }

  /** Rings of one size whose tokens do not correspond. */
  predicate FallsBack(ring: seq<Node>, target: seq<Node>) {
    FirstCount(ring) != FirstCount(target) || (FirstCount(target) == Some(1) && TokenKeys(ring) != TokenKeys(target))
  }

  // ---------------------------------------------------------------- the job

  ghost predicate Enumeration(s: seq<string>, hosts: set<string>) {
    (forall i, j :: 0 <= i < j < |s| ==> s[i] != s[j]) && (set h | h in s) == hosts
  }

  /** _tokenmap_to_nodes_per_rack, before sorting. */
  method GroupByRack(ring: seq<Node>) returns (groups: seq<Keyed<seq<string>>>)
    ensures groups == Grouped(ring)
  {
    hide AddHost, Codes;
    groups := [];
    for i := 0 to |ring|
      invariant groups == Grouped(ring[..i])
    {
      assert ring[..i + 1][..i] == ring[..i];
      groups := AddHost(groups, Codes(ring[i].rack), ring[i].host);
    }
    assert ring[..|ring|] == ring;
  }

  /** _chunk; None is a division by zero. */
  method Chunk(hosts: seq<string>, nb: nat) returns (r: Option<seq<seq<string>>>)
    ensures r == if nb == 0 && hosts != [] then None else Some(Chunks(hosts, nb))
  {
    var groups := seq(nb, _ => []);
    for i := 0 to |hosts|
      invariant nb > 0 || i == 0
      invariant |groups| == nb && forall g :: 0 <= g < nb ==> groups[g] == Dealt(hosts, i, g, nb)
    {
      if nb == 0 { return None; }
      groups := groups[i % nb := groups[i % nb] + [hosts[i]]];
    }
    assert groups == Chunks(hosts, nb);
    r := Some(groups);
  }

  class RestoreJob {
    const ignoreRacks: bool
    /** The targets whose name resolves to that of a seed. */
    const seeds: set<string>
    var hostMap: HostMap
    var inPlace: bool
    var useSstableloader: bool

    constructor (ignoreRacks: bool, seeds: set<string>, useSstableloader: bool)
      ensures this.ignoreRacks == ignoreRacks && this.seeds == seeds && this.useSstableloader == useSstableloader
      ensures hostMap == map[] && !inPlace
    {
      this.ignoreRacks, this.seeds, this.useSstableloader := ignoreRacks, seeds, useSstableloader;
      hostMap, inPlace := map[], false;
    }

    method MapIgnoredRacks(ring: seq<Node>, target: seq<Node>)
      requires |ring| == |target| && AllTokens(ring) && AllTokens(target) && hostMap == map[]
      modifies this`hostMap
      ensures hostMap == Paired(SortedHosts(target), SortedHosts(ring), seeds)
    {
      hide SortedHosts, Zip;
      var backups, targets := SortedHosts(ring), SortedHosts(target);
      PairedNothing(targets, backups, seeds);
      for i := 0 to |backups|
        invariant hostMap == Paired(targets[..i], backups[..i], seeds)
      {
        PairedStep(targets, backups, seeds, i);
        hostMap := hostMap[targets[i] := Single(targets[i], backups[i], seeds)];
      }
      assert targets[..|backups|] == targets && backups[..|backups|] == backups;
    }

    /** Rack sizes agree, so every rack index is in bounds. */
    method MapWithRacks(ring: seq<Node>, target: seq<Node>)
      requires Topology(Racks(ring)) == Topology(Racks(target)) && |ring| == |target| && hostMap == map[]
      modifies this`hostMap
      ensures hostMap == Paired(RackHosts(target), RackHosts(ring), seeds)
    {
      hide Racks, Zip, Flat;
      var br, tr := Racks(ring), Racks(target);
      FlatNothing();
      assert |Topology(br)| == |Topology(tr)|;
      PairedNothing([], [], seeds);
      for i := 0 to |br|
        invariant SameSizes(br[..i], tr[..i])
        invariant |Flat(tr[..i])| == |Flat(br[..i])|
        invariant hostMap == Paired(Flat(tr[..i]), Flat(br[..i]), seeds)
      {
        assert Topology(br)[i] == Topology(tr)[i];
        var backups, targets := br[i].item, tr[i].item;
        ghost var doneT, doneB := Flat(tr[..i]), Flat(br[..i]);
        assert doneT + targets[..0] == doneT && doneB + backups[..0] == doneB;
        for j := 0 to |backups|
          invariant hostMap == Paired(doneT + targets[..j], doneB + backups[..j], seeds)
        {
          PairedAppend(doneT, doneB, targets, backups, seeds, j);
          hostMap := hostMap[targets[j] := Single(targets[j], backups[j], seeds)];
        }
        assert targets[..|backups|] == targets && backups[..|backups|] == backups;
        FlatStep(tr, i);
        FlatStep(br, i);
      }
      assert br[..|br|] == br && tr[..|br|] == tr;
    }

    /** The orders are those in which Python happens to list the two host sets. */
    method MapDifferentTopologies(backups: seq<string>, targets: seq<string>) returns (ok: bool)
      requires hostMap == map[]
      modifies this`hostMap, this`useSstableloader
      ensures useSstableloader
      ensures ok == (targets != [] || backups == [])
      ensures hostMap == if ok then DealtMap(backups, targets) else map[]
    {
      hide Zip, Dealt;
      useSstableloader := true;
      var chunks := Chunk(backups, GroupCount(|backups|, |targets|));
      if chunks.None? { return false; }
      var groups := chunks.value;
      ZipNothing();
      for i := 0 to if |groups| < |targets| then |groups| else |targets|
        invariant useSstableloader && hostMap == Zip(targets[..i], Groups(groups)[..i])
      {
        ZipStep(targets, Groups(groups), i);
        hostMap := hostMap[targets[i] := Entry(groups[i], false)];
      }
      assert Groups(groups)[..|groups|] == Groups(groups);
      ok := true;
    }

    method ValidateRingmap(ring: seq<Node>, target: seq<Node>) returns (r: Option<bool>, up: bool)
      ensures up == AllUp(target)
      ensures up && |ring| != |target| ==> r == Some(false)
      ensures up && |ring| == |target| && ignoreRacks ==> r == Some(true)
      ensures up && |ring| == |target| && !ignoreRacks ==>
                r == if AllTokens(ring) && AllTokens(target) then Some(Topology(Racks(ring)) == Topology(Racks(target))) else None
    {
      hide Sort, Grouped;
      r := Some(false);
      for i := 0 to |target|
        invariant AllUp(target[..i])
      {
        if !target[i].up { return r, false; }
      }
      assert target[..|target|] == target;
      up := true;
      if |ring| != |target| { return; }
      if ignoreRacks { return Some(true), true; }
      if !(AllTokens(ring) && AllTokens(target)) { return None, true; }
      var br := GroupByRack(ring);
      var tr := GroupByRack(target);
      r := Some(Topology(Sort(br)) == Topology(Sort(tr)));
    }

    method PopulateRingmap(ring: seq<Node>, target: seq<Node>, backups: seq<string>, targets: seq<string>) returns (d: Decision)
      requires hostMap == map[] && Dict(ring) && Dict(target)
      requires Enumeration(backups, Hosts(ring)) && Enumeration(targets, Hosts(target))
      modifies this`hostMap, this`inPlace, this`useSstableloader
      ensures d == Decide(ring, target, ignoreRacks)
      ensures d != NotUp && d != Crash ==> inPlace == (Hosts(ring) * Hosts(target) != {})
      ensures d == Fallback ==> useSstableloader && hostMap == DealtMap(backups, targets)
      ensures d == ByToken ==> useSstableloader == old(useSstableloader) && hostMap == Paired(SortedHosts(target), SortedHosts(ring), seeds)
      ensures d == ByRack ==> useSstableloader == old(useSstableloader) && hostMap == Paired(RackHosts(target), RackHosts(ring), seeds)
      ensures d == NotUp || d == Crash ==> hostMap == map[]
    {
      hide Topology, Racks, TokenKeys, SortedHosts, RackHosts, Paired, DealtMap;
      EnumerationEmpty(ring, backups);
      EnumerationEmpty(target, targets);
      var matches, up := ValidateRingmap(ring, target);
      if !up { return NotUp; }
      if matches.None? { return Crash; }
      inPlace := Hosts(ring) * Hosts(target) != {};
      if !matches.value || FirstCount(ring) != FirstCount(target)
         || (FirstCount(target) == Some(1) && TokenKeys(target) != TokenKeys(ring))
      {
        var ok := MapDifferentTopologies(backups, targets);
        return if ok then Fallback else Crash;
      }
      if ignoreRacks {
        if !(AllTokens(ring) && AllTokens(target)) { return Crash; }
        MapIgnoredRacks(ring, target);
        return ByToken;
      }
      MapWithRacks(ring, target);
      return ByRack;
    }
  }

  ghost predicate SameSizes(a: seq<Keyed<seq<string>>>, b: seq<Keyed<seq<string>>>) {
    |a| == |b| && forall i :: 0 <= i < |a| ==> |a[i].item| == |b[i].item|
  }

  lemma EnumerationEmpty(ring: seq<Node>, s: seq<string>)
    requires Enumeration(s, Hosts(ring))
    ensures s == [] <==> ring == []
  {
    if ring != [] { assert ring[0] in ring; assert ring[0].host in Hosts(ring); }
    if s != [] { assert s[0] in s; assert s[0] in Hosts(ring); }
  }

  lemma PairedNothing(targets: seq<string>, sources: seq<string>, seeds: set<string>)
    ensures Paired(targets[..0], sources[..0], seeds) == map[]
  {
  }

  lemma ZipNothing()
    ensures Zip([], []) == map[]
  {
  }

  lemma ZipStep(targets: seq<string>, entries: seq<Entry>, i: nat)
    requires i < |targets| && i < |entries|
    ensures Zip(targets[..i + 1], entries[..i + 1]) == Zip(targets[..i], entries[..i])[targets[i] := entries[i]]
  {
    assert targets[..i + 1][..i] == targets[..i] && entries[..i + 1][..i] == entries[..i];
  }

  lemma PairedStep(targets: seq<string>, sources: seq<string>, seeds: set<string>, i: nat)
    requires i < |targets| && i < |sources|
    ensures Paired(targets[..i + 1], sources[..i + 1], seeds)
            == Paired(targets[..i], sources[..i], seeds)[targets[i] := Single(targets[i], sources[i], seeds)]
  {
    hide Zip, Single;
    var t, s := targets[..i + 1], sources[..i + 1];
    var entries := Singles(t, s, seeds);
    ZipStep(t, entries, i);
    assert t[..i + 1] == t && entries[..i + 1] == entries && t[..i] == targets[..i];
    assert entries[..i] == Singles(targets[..i], sources[..i], seeds);
  }

  lemma PairedAppend(doneT: seq<string>, doneB: seq<string>, targets: seq<string>, sources: seq<string>, seeds: set<string>, j: nat)
    requires |doneT| == |doneB| && j < |targets| && j < |sources|
    ensures Paired(doneT + targets[..j + 1], doneB + sources[..j + 1], seeds)
            == Paired(doneT + targets[..j], doneB + sources[..j], seeds)[targets[j] := Single(targets[j], sources[j], seeds)]
  {
    hide Paired, Single;
    var t, s := doneT + targets, doneB + sources;
    var i := |doneT| + j;
    PairedStep(t, s, seeds, i);
    assert t[..i] == doneT + targets[..j] && t[..i + 1] == doneT + targets[..j + 1];
    assert s[..i] == doneB + sources[..j] && s[..i + 1] == doneB + sources[..j + 1];
  }

  lemma FlatStep(groups: seq<Keyed<seq<string>>>, i: nat)
    requires i < |groups|
    ensures Flat(groups[..i + 1]) == Flat(groups[..i]) + groups[i].item
  {
    assert groups[..i + 1][..i] == groups[..i];
  }

  // ---------------------------------------------------------------- nobody is lost

  ghost predicate NoDup(s: seq<string>) { forall i, j :: 0 <= i < j < |s| ==> s[i] != s[j] }

  ghost function SetOf(s: seq<string>): set<string> { set h | h in s }

  lemma {:induction false} ZipExact(targets: seq<string>, entries: seq<Entry>)
    requires |targets| == |entries| && NoDup(targets)
    ensures Zip(targets, entries).Keys == SetOf(targets)
    ensures forall i :: 0 <= i < |targets| ==> targets[i] in Zip(targets, entries) && Zip(targets, entries)[targets[i]] == entries[i]
  {
    if targets != [] {
      var n := |targets| - 1;
      ZipExact(targets[..n], entries[..n]);
      assert targets == targets[..n] + [targets[n]];
      assert targets[n] !in targets[..n];
      forall i | 0 <= i < |targets| ensures targets[i] in Zip(targets, entries) && Zip(targets, entries)[targets[i]] == entries[i] {
        if i < n { assert targets[..n][i] == targets[i] && entries[..n][i] == entries[i]; }
      }
    }
  }

  /** One source for each target, each backup host the source of exactly one. */
  ghost predicate Bijection(m: HostMap, targets: set<string>, backups: set<string>) {
    && m.Keys == targets
    && (forall t :: t in m ==> |m[t].source| == 1 && m[t].source[0] in backups)
    && (forall t, u :: t in m && u in m && m[t].source == m[u].source ==> t == u)
    && (forall b :: b in backups ==> exists t :: t in m && m[t].source == [b])
  }

  lemma PairedExact(targets: seq<string>, sources: seq<string>, seeds: set<string>)
    requires |targets| == |sources| && NoDup(targets)
    ensures var m := Paired(targets, sources, seeds);
            && m.Keys == SetOf(targets)
            && forall i :: 0 <= i < |targets| ==> targets[i] in m && m[targets[i]] == Entry([sources[i]], targets[i] in seeds)
  {
    hide Zip, NoDup, SetOf;
    ZipExact(targets, Singles(targets, sources, seeds));
  }

  lemma AtSet(s: seq<string>, h: string) returns (i: nat)
    requires h in SetOf(s)
    ensures i < |s| && s[i] == h
  {
    i :| 0 <= i < |s| && s[i] == h;
  }

  lemma InSet(s: seq<string>, i: nat)
    requires i < |s|
    ensures s[i] in SetOf(s)
  {
  }

  /** Where a target's entry comes from. */
  lemma PairedAt(targets: seq<string>, sources: seq<string>, seeds: set<string>, t: string) returns (i: nat)
    requires |targets| == |sources| && NoDup(targets) && t in Paired(targets, sources, seeds)
    ensures i < |targets| && targets[i] == t && Paired(targets, sources, seeds)[t].source == [sources[i]] && sources[i] in SetOf(sources)
  {
    PairedExact(targets, sources, seeds);
    hide Paired, SetOf;
    i := AtSet(targets, t);
    InSet(sources, i);
  }

  lemma BijectionMake(m: HostMap, targets: set<string>, backups: set<string>)
    requires m.Keys == targets
    requires forall t :: t in m ==> |m[t].source| == 1 && m[t].source[0] in backups
    requires forall t, u :: t in m && u in m && m[t].source == m[u].source ==> t == u
    requires forall b :: b in backups ==> exists t :: t in m && m[t].source == [b]
    ensures Bijection(m, targets, backups)
  {
  }

  lemma SameSource(sources: seq<string>, i: nat, j: nat)
    requires i < |sources| && j < |sources| && NoDup(sources) && [sources[i]] == [sources[j]]
    ensures i == j
  {
    assert [sources[i]][0] == [sources[j]][0];
  }

  /** Pairing two orders without repetitions is a bijection. */
  lemma PairedBijection(targets: seq<string>, sources: seq<string>, seeds: set<string>)
    requires |targets| == |sources| && NoDup(targets) && NoDup(sources)
    ensures Bijection(Paired(targets, sources, seeds), SetOf(targets), SetOf(sources))
  {
    hide *;
    var m := Paired(targets, sources, seeds);
    PairedExact(targets, sources, seeds);
    forall t | t in m ensures |m[t].source| == 1 && m[t].source[0] in SetOf(sources) {
      var i := PairedAt(targets, sources, seeds, t);
    }
    forall t, u | t in m && u in m && m[t].source == m[u].source ensures t == u {
      var i := PairedAt(targets, sources, seeds, t);
      var j := PairedAt(targets, sources, seeds, u);
      SameSource(sources, i, j);
    }
    forall b | b in SetOf(sources) ensures exists t :: t in m && m[t].source == [b] {
      var i := AtSet(sources, b);
      assert targets[i] in m && m[targets[i]].source == [b];
    }
    BijectionMake(m, SetOf(targets), SetOf(sources));
  }

  lemma NoDupKept(s: seq<string>, t: seq<string>)
    requires multiset(s) == multiset(t) && NoDup(s)
    ensures NoDup(t) && SetOf(s) == SetOf(t)
  {
    forall i, j | 0 <= i < j < |t| ensures t[i] != t[j] {
      var a := Located(s, t, i);
      Once(s, a);
      Twice(t, i, j);
    }
    MembersKept(s, t);
  }

  lemma Once(s: seq<string>, a: nat)
    requires NoDup(s) && a < |s|
    ensures multiset(s)[s[a]] == 1
  {
    assert s == s[..a] + [s[a]] + s[a + 1..];
    assert s[a] !in s[..a] && s[a] !in s[a + 1..];
  }

  lemma HostListOf(ring: seq<Node>)
    requires Dict(ring)
    ensures NoDup(HostList(ring)) && SetOf(HostList(ring)) == Hosts(ring)
  {
    forall h ensures h in SetOf(HostList(ring)) <==> h in Hosts(ring) {
      if h in Hosts(ring) {
        var n :| n in ring && n.host == h;
        var i :| 0 <= i < |ring| && ring[i] == n;
        assert HostList(ring)[i] == h;
      }
      if h in HostList(ring) {
        var i :| 0 <= i < |ring| && HostList(ring)[i] == h;
        assert ring[i] in ring;
      }
    }
  }

  lemma RackHostsOf(ring: seq<Node>)
    requires Dict(ring)
    ensures NoDup(RackHosts(ring)) && SetOf(RackHosts(ring)) == Hosts(ring)
  {
    hide Flat, Racks, NoDup, SetOf, Hosts, Dict;
    RackHostsKept(ring);
    HostListOf(ring);
    NoDupKept(HostList(ring), RackHosts(ring));
  }

  lemma {:induction false} InsertNames(s: seq<Keyed<string>>, x: Keyed<string>)
    ensures multiset(Names(Insert(s, x))) == multiset(Names(s)) + multiset{x.item}
  {
    hide LexLe;
    if s != [] {
      var front, last := s[..|s| - 1], s[|s| - 1];
      assert Names(s) == Names(front) + [last.item];
      assert Names(s + [x]) == Names(s) + [x.item];
      InsertNames(front, x);
      assert Names(Insert(front, x) + [last]) == Names(Insert(front, x)) + [last.item];
    }
  }

  lemma {:induction false} SortNames(s: seq<Keyed<string>>)
    ensures multiset(Names(Sort(s))) == multiset(Names(s))
  {
    hide Insert;
    if s != [] {
      var front, last := s[..|s| - 1], s[|s| - 1];
      assert Names(s) == Names(front) + [last.item];
      SortNames(front);
      InsertNames(Sort(front), last);
    }
  }

  lemma SortedHostsOf(ring: seq<Node>)
    requires Dict(ring) && AllTokens(ring)
    ensures NoDup(SortedHosts(ring)) && SetOf(SortedHosts(ring)) == Hosts(ring)
  {
    hide Sort, NoDup, SetOf, Hosts, Dict, AllTokens;
    var keyed := ByFirstToken(ring);
    SortSorts(keyed);
    SortNames(keyed);
    assert Names(keyed) == HostList(ring);
    HostListOf(ring);
    NoDupKept(HostList(ring), SortedHosts(ring));
  }

  /** When the clusters match, every target restores one backup host and every backup host is restored once. */
  lemma MatchingIsBijection(ring: seq<Node>, target: seq<Node>, ignoreRacks: bool, seeds: set<string>)
    requires Dict(ring) && Dict(target)
    ensures Decide(ring, target, ignoreRacks) == ByToken ==>
              Bijection(Paired(SortedHosts(target), SortedHosts(ring), seeds), Hosts(target), Hosts(ring))
    ensures Decide(ring, target, ignoreRacks) == ByRack ==>
              Bijection(Paired(RackHosts(target), RackHosts(ring), seeds), Hosts(target), Hosts(ring))
  {
    var d := Decide(ring, target, ignoreRacks);
    hide Decide, SortedHosts, RackHosts, Paired, Bijection, NoDup, SetOf, Hosts, Dict, AllTokens;
    if d == ByToken {
      SortedHostsOf(ring);
      SortedHostsOf(target);
      PairedBijection(SortedHosts(target), SortedHosts(ring), seeds);
    }
    if d == ByRack {
      RackHostsOf(ring);
      RackHostsOf(target);
      PairedBijection(RackHosts(target), RackHosts(ring), seeds);
    }
  }

  // -- the fallback

  lemma {:induction false} ShareExact(n: nat, g: nat, nb: nat)
    requires g < nb
    ensures Share(n, g, nb) == n / nb + if g < n % nb then 1 else 0
  {
    if n == 0 {
      Divided(0, 0, 0, nb);
    } else {
      ShareExact(n - 1, g, nb);
      var q, r := (n - 1) / nb, (n - 1) % nb;
      Recomposed(n - 1, nb);
      ShareUnfolds(n, g, nb, r);
      ShareNext(n, g, nb, q, r);
    }
  }

  lemma Recomposed(n: nat, nb: nat)
    requires nb > 0
    ensures n == n / nb * nb + n % nb && 0 <= n % nb < nb && n / nb >= 0
  {
  }

  lemma ShareUnfolds(n: nat, g: nat, nb: nat, r: nat)
    requires n > 0 && g < nb && r == (n - 1) % nb
    ensures Share(n, g, nb) == Share(n - 1, g, nb) + if r == g then 1 else 0
  {
  }

  lemma ShareNext(n: nat, g: nat, nb: nat, q: nat, r: nat)
    requires n > 0 && g < nb && r < nb && n - 1 == q * nb + r
    ensures n / nb + (if g < n % nb then 1 else 0) == q + (if g < r then 1 else 0) + (if r == g then 1 else 0)
  {
    assert (q + 1) * nb == q * nb + nb;
    if r == nb - 1 {
      Divided(n, q + 1, 0, nb);
    } else {
      Divided(n, q, r + 1, nb);
    }
  }

  lemma Divided(n: nat, q: nat, r: nat, nb: nat)
    requires nb > 0 && r < nb && n == q * nb + r
    ensures n / nb == q && n % nb == r
  {
    var q', r' := n / nb, n % nb;
    assert n == q' * nb + r';
    Scale(q' + 1, q, nb);
    Scale(q + 1, q', nb);
    assert (q' + 1) * nb == q' * nb + nb && (q + 1) * nb == q * nb + nb;
  }

  lemma Scale(a: nat, b: nat, nb: nat)
    ensures a <= b ==> a * nb <= b * nb
  {
  }

  /** The next position dealt to group g, when it is its turn. */
  lemma Turn(n: nat, g: nat, nb: nat)
    requires g < nb && n % nb == g
    ensures g + Share(n, g, nb) * nb == n
  {
    hide Share;
    ShareExact(n, g, nb);
    assert n == n / nb * nb + n % nb;
  }

  /** The k-th host of group g is the one at position g + k * nb. */
  lemma {:induction false} DealtElement(hosts: seq<string>, n: nat, g: nat, nb: nat, k: nat)
    requires n <= |hosts| && g < nb && k < |Dealt(hosts, n, g, nb)|
    ensures 0 <= g + k * nb < n && Dealt(hosts, n, g, nb)[k] == hosts[g + k * nb]
  {
    hide Share;
    if (n - 1) % nb == g && k == |Dealt(hosts, n - 1, g, nb)| {
      Turn(n - 1, g, nb);
    } else {
      DealtElement(hosts, n - 1, g, nb, k);
    }
  }

  lemma {:induction false} DealtPosition(hosts: seq<string>, n: nat, nb: nat, i: nat)
    requires n <= |hosts| && nb > 0 && i < n
    ensures hosts[i] in Dealt(hosts, n, i % nb, nb)
  {
    if i == n - 1 {
      var d := Dealt(hosts, n, i % nb, nb);
      assert d[|d| - 1] == hosts[i];
    } else {
      DealtPosition(hosts, n - 1, nb, i);
    }
  }

  /**
   The sources partition the backup hosts: each backup host is restored by exactly one target, no mapped
   target is left without a source, and the groups differ in size by at most one.
   */
  ghost predicate Partition(m: HostMap, backups: set<string>) {
    && (forall t :: t in m ==> m[t].source != [] && NoDup(m[t].source) && SetOf(m[t].source) <= backups)
    && (forall b :: b in backups ==> exists t :: t in m && b in m[t].source)
    && (forall t, u, b :: t in m && u in m && b in m[t].source && b in m[u].source ==> t == u)
    && (forall t, u :: t in m && u in m ==> |m[t].source| <= |m[u].source| + 1)
  }

  lemma DealtMapAt(backups: seq<string>, targets: seq<string>, g: nat)
    requires NoDup(targets) && g < GroupCount(|backups|, |targets|)
    ensures var m, nb := DealtMap(backups, targets), GroupCount(|backups|, |targets|);
            targets[g] in m && m[targets[g]] == Entry(Dealt(backups, |backups|, g, nb), false)
  {
    hide Zip;
    var nb := GroupCount(|backups|, |targets|);
    ZipExact(targets[..nb], Groups(Chunks(backups, nb)));
    assert targets[..nb][g] == targets[g];
  }

  lemma DealtMapKeys(backups: seq<string>, targets: seq<string>)
    requires NoDup(targets)
    ensures DealtMap(backups, targets).Keys == SetOf(targets[..GroupCount(|backups|, |targets|)])
  {
    hide Zip;
    var nb := GroupCount(|backups|, |targets|);
    ZipExact(targets[..nb], Groups(Chunks(backups, nb)));
  }

  lemma DealtMapKey(backups: seq<string>, targets: seq<string>, t: string) returns (g: nat)
    requires NoDup(targets) && t in DealtMap(backups, targets)
    ensures g < GroupCount(|backups|, |targets|) && targets[g] == t
    ensures DealtMap(backups, targets)[t] == Entry(Dealt(backups, |backups|, g, GroupCount(|backups|, |targets|)), false)
  {
    hide DealtMap, NoDup, SetOf;
    DealtMapKeys(backups, targets);
    g := AtSet(targets[..GroupCount(|backups|, |targets|)], t);
    DealtMapAt(backups, targets, g);
  }

  lemma AtLeastOne(n: nat, nb: nat)
    requires 0 < nb <= n
    ensures n / nb >= 1
  {
    var q, r := n / nb, n % nb;
    assert n == q * nb + r && r < nb;
    Scale(q, 0, nb);
  }

  lemma SharesBalanced(n: nat, g: nat, h: nat, nb: nat)
    requires g < nb <= n && h < nb
    ensures 1 <= Share(n, g, nb) <= Share(n, h, nb) + 1
  {
    hide Share;
    ShareExact(n, g, nb);
    ShareExact(n, h, nb);
    AtLeastOne(n, nb);
  }

  /** Where a host of group g comes from. */
  lemma DealtFrom(hosts: seq<string>, g: nat, nb: nat, b: string) returns (i: nat)
    requires g < nb && b in Dealt(hosts, |hosts|, g, nb)
    ensures i < |hosts| && hosts[i] == b && i % nb == g
  {
    var d := Dealt(hosts, |hosts|, g, nb);
    var k :| 0 <= k < |d| && d[k] == b;
    DealtElement(hosts, |hosts|, g, nb, k);
    i := g + k * nb;
    Divided(i, k, g, nb);
  }

  lemma DealtDistinct(hosts: seq<string>, g: nat, nb: nat)
    requires g < nb && NoDup(hosts)
    ensures NoDup(Dealt(hosts, |hosts|, g, nb))
  {
    hide Dealt;
    var d := Dealt(hosts, |hosts|, g, nb);
    forall j, k | 0 <= j < k < |d| ensures d[j] != d[k] {
      DealtElement(hosts, |hosts|, g, nb, j);
      DealtElement(hosts, |hosts|, g, nb, k);
      assert j * nb + nb == (j + 1) * nb <= k * nb;
    }
  }

  lemma SameGroup(backups: seq<string>, g: nat, h: nat, nb: nat, b: string)
    requires NoDup(backups) && g < nb && h < nb && b in Dealt(backups, |backups|, g, nb) && b in Dealt(backups, |backups|, h, nb)
    ensures g == h
  {
    hide Dealt;
    var i := DealtFrom(backups, g, nb, b);
    var j := DealtFrom(backups, h, nb, b);
  }

  lemma DealtWithin(backups: seq<string>, g: nat, nb: nat)
    requires g < nb
    ensures SetOf(Dealt(backups, |backups|, g, nb)) <= SetOf(backups)
  {
    hide Dealt;
    forall b | b in SetOf(Dealt(backups, |backups|, g, nb)) ensures b in SetOf(backups) {
      var i := DealtFrom(backups, g, nb, b);
    }
  }

  lemma DealtPartition(backups: seq<string>, targets: seq<string>)
    requires NoDup(backups) && NoDup(targets) && targets != []
    ensures Partition(DealtMap(backups, targets), SetOf(backups))
  {
    hide DealtMap, SetOf, Dealt, NoDup;
    var m, nb := DealtMap(backups, targets), GroupCount(|backups|, |targets|);
    forall t | t in m ensures m[t].source != [] && NoDup(m[t].source) && SetOf(m[t].source) <= SetOf(backups) {
      var g := DealtMapKey(backups, targets, t);
      SharesBalanced(|backups|, g, g, nb);
      DealtDistinct(backups, g, nb);
      DealtWithin(backups, g, nb);
    }
    forall b | b in SetOf(backups) ensures exists t :: t in m && b in m[t].source {
      var i := AtSet(backups, b);
      DealtPosition(backups, |backups|, nb, i);
      DealtMapAt(backups, targets, i % nb);
    }
    forall t, u, b | t in m && u in m && b in m[t].source && b in m[u].source ensures t == u {
      var g := DealtMapKey(backups, targets, t);
      var h := DealtMapKey(backups, targets, u);
      SameGroup(backups, g, h, nb, b);
    }
    forall t, u | t in m && u in m ensures |m[t].source| <= |m[u].source| + 1 {
      var g := DealtMapKey(backups, targets, t);
      var h := DealtMapKey(backups, targets, u);
      SharesBalanced(|backups|, g, h, nb);
    }
  }

  /** When they do not match, nobody is lost either, and as many targets as possible take part. */
  lemma FallbackPartitions(ring: seq<Node>, target: seq<Node>, ignoreRacks: bool, backups: seq<string>, targets: seq<string>)
    requires Decide(ring, target, ignoreRacks) == Fallback
    requires Enumeration(backups, Hosts(ring)) && Enumeration(targets, Hosts(target))
    ensures Partition(DealtMap(backups, targets), Hosts(ring))
    ensures DealtMap(backups, targets).Keys <= Hosts(target)
    ensures |DealtMap(backups, targets)| == if |backups| <= |targets| then |backups| else |targets|
  {
    hide Partition, DealtMap, Topology, Racks, FallsBack, AllTokens, AllUp;
    EnumerationEmpty(target, targets);
    assert NoDup(backups) && NoDup(targets) && SetOf(backups) == Hosts(ring) && SetOf(targets) == Hosts(target);
    FallbackHasTargets(ring, target, ignoreRacks);
    DealtPartition(backups, targets);
    DealtMapKeys(backups, targets);
    var used := targets[..GroupCount(|backups|, |targets|)];
    assert NoDup(used);
    SetSize(used);
  }

  lemma FallbackHasTargets(ring: seq<Node>, target: seq<Node>, ignoreRacks: bool)
    requires Decide(ring, target, ignoreRacks) == Fallback
    ensures target != []
  {
    hide AllUp, AllTokens, Sort;
    assert ring == [] && target == [] ==> ring == target;
  }

  lemma {:induction false} SetSize(s: seq<string>)
    requires NoDup(s)
    ensures |SetOf(s)| == |s|
  {
    if s != [] {
      var front, last := s[..|s| - 1], s[|s| - 1];
      SetSize(front);
      assert s == front + [last] && last !in front;
      assert SetOf(s) == SetOf(front) + {last};
    }
  }

  // ---------------------------------------------------------------- tokens stay where they were

  lemma TokenTextShape(token: int)
    ensures ',' !in TokenText(token) && TokenText(token) != ""
    ensures TokenText(token)[0] == '-' <==> token < 0
  {
    var digits := Decimal(if token < 0 then -token else token);
    assert AllDigits(digits) && digits[0] in digits;
  }

  lemma TokenTextInjective(a: int, b: int)
    requires TokenText(a) == TokenText(b)
    ensures a == b
  {
    TokenTextShape(a);
    TokenTextShape(b);
    hide Decimal, ParseDecimal, AllDigits;
    if a < 0 {
      assert TokenText(a)[1..] == Decimal(-a) && TokenText(b)[1..] == Decimal(-b);
      DecimalRoundTrip(-a);
      DecimalRoundTrip(-b);
    } else {
      DecimalRoundTrip(a);
      DecimalRoundTrip(b);
    }
  }

  lemma {:induction false} TextAt(tokens: seq<int>, i: nat)
    requires i < |tokens|
    ensures TokenTexts(tokens)[i] == TokenText(tokens[i])
  {
    if i < |tokens| - 1 { TextAt(tokens[..|tokens| - 1], i); }
  }

  lemma TextsPlain(tokens: seq<int>)
    ensures forall i :: 0 <= i < |tokens| ==> ',' !in TokenTexts(tokens)[i] && TokenTexts(tokens)[i] != ""
  {
    hide TokenTexts, TokenText;
    forall i | 0 <= i < |tokens| ensures ',' !in TokenTexts(tokens)[i] && TokenTexts(tokens)[i] != "" {
      TextAt(tokens, i);
      TokenTextShape(tokens[i]);
    }
  }

  lemma KeyEmpty(tokens: seq<int>)
    ensures TokensKey(tokens) == "" <==> tokens == []
  {
    hide TokenTexts;
    TextsPlain(tokens);
  }

  /** The text of a token list determines it. */
  lemma TokensKeyInjective(a: seq<int>, b: seq<int>)
    requires TokensKey(a) == TokensKey(b)
    ensures a == b
  {
    hide TokenTexts, TokenText, Join;
    KeyEmpty(a);
    KeyEmpty(b);
    if a != [] {
      TextsPlain(a);
      TextsPlain(b);
      SplitJoin(TokenTexts(a), ',');
      SplitJoin(TokenTexts(b), ',');
      forall i | 0 <= i < |a| ensures a[i] == b[i] {
        TextAt(a, i);
        TextAt(b, i);
        TokenTextInjective(a[i], b[i]);
      }
    }
  }

  /** Some host's token list occurs in one ring only. */
  ghost predicate OtherTokens(ring: seq<Node>, target: seq<Node>) {
    (exists n :: n in ring && forall o :: o in target ==> o.tokens != n.tokens)
    || (exists n :: n in target && forall o :: o in ring ==> o.tokens != n.tokens)
  }

  lemma OtherTokensExact(ring: seq<Node>, target: seq<Node>)
    ensures TokenKeys(ring) != TokenKeys(target) <==> OtherTokens(ring, target)
  {
    hide TokensKey;
    forall n: Node, o: Node | TokensKey(n.tokens) == TokensKey(o.tokens) ensures n.tokens == o.tokens {
      TokensKeyInjective(n.tokens, o.tokens);
    }
    if TokenKeys(ring) == TokenKeys(target) {
      forall n | n in ring ensures exists o :: o in target && o.tokens == n.tokens { assert TokensKey(n.tokens) in TokenKeys(target); }
      forall n | n in target ensures exists o :: o in ring && o.tokens == n.tokens { assert TokensKey(n.tokens) in TokenKeys(ring); }
    }
  }

  /** The first hosts have different numbers of tokens, or one each and the rings do not have the same token lists. */
  ghost predicate Uneven(ring: seq<Node>, target: seq<Node>) {
    && ring != [] && target != []
    && (|ring[0].tokens| != |target[0].tokens| || (|target[0].tokens| == 1 && OtherTokens(ring, target)))
  }

  lemma FallsBackExact(ring: seq<Node>, target: seq<Node>)
    requires |ring| == |target|
    ensures FallsBack(ring, target) <==> Uneven(ring, target)
  {
    OtherTokensExact(ring, target);
    hide TokenKeys, OtherTokens;
  }

  /**
   When each of the five outcomes is taken, for all rings: a target that is down stops the restore; rings of
   different sizes are dealt out, unless there is no target at all; of rings of one size those with a host
   without tokens fail, unless the token counts are looked at before that; rings whose rack sizes, token
   counts or single tokens differ are dealt out; all others are mapped host by host.
   */
  lemma DecideExact(ring: seq<Node>, target: seq<Node>, ignoreRacks: bool)
    ensures var d := Decide(ring, target, ignoreRacks);
            var up := forall n :: n in target ==> n.up;
            var bare := exists n :: (n in ring || n in target) && n.tokens == [];
            var racks := !ignoreRacks && Topology(Racks(ring)) != Topology(Racks(target));
            var fails := if |ring| != |target| then target == [] else bare && (!ignoreRacks || !Uneven(ring, target));
            var deals := |ring| != |target| || racks || Uneven(ring, target);
            && (d == NotUp <==> !up)
            && (d == Crash <==> up && fails)
            && (d == Fallback <==> up && !fails && deals)
            && (d == ByToken <==> up && !fails && !deals && ignoreRacks)
            && (d == ByRack <==> up && !fails && !deals && !ignoreRacks)
  {
    hide Topology, Racks, FallsBack, Uneven;
    if |ring| == |target| { FallsBackExact(ring, target); }
    BareExact(ring, target);
  }

  lemma BareExact(ring: seq<Node>, target: seq<Node>)
    ensures AllTokens(ring) && AllTokens(target) <==> !exists n :: (n in ring || n in target) && n.tokens == []
    ensures AllUp(target) <==> forall n :: n in target ==> n.up
  {
  }

  ghost predicate DistinctFirst(ring: seq<Node>)
    requires AllTokens(ring)
  {
    forall m, n :: m in ring && n in ring && m.tokens[0] == n.tokens[0] ==> m == n
  }

  lemma FirstTokenMember(ring: seq<Node>, x: Keyed<string>)
    requires AllTokens(ring)
    ensures x in ByFirstToken(ring) <==> exists n :: n in ring && x == Keyed([n.tokens[0]], n.host)
  {
    if n :| n in ring && x == Keyed([n.tokens[0]], n.host) {
      var i :| 0 <= i < |ring| && ring[i] == n;
      assert ByFirstToken(ring)[i] == x;
    }
    if x in ByFirstToken(ring) {
      var i :| 0 <= i < |ring| && ByFirstToken(ring)[i] == x;
      assert ring[i] in ring;
    }
  }

  lemma FirstTokensDistinct(ring: seq<Node>)
    requires Dict(ring) && AllTokens(ring) && DistinctFirst(ring)
    ensures DistinctKeys(ByFirstToken(ring))
  {
    var keyed := ByFirstToken(ring);
    forall i, j | 0 <= i < j < |keyed| ensures keyed[i].key != keyed[j].key {
      assert ring[i] in ring && ring[j] in ring;
      assert keyed[i].key[0] == ring[i].tokens[0] && keyed[j].key[0] == ring[j].tokens[0];
    }
  }

  lemma KeyedNode(ring: seq<Node>, x: Keyed<string>) returns (n: Node)
    requires AllTokens(ring) && x in Sort(ByFirstToken(ring))
    ensures n in ring && x == Keyed([n.tokens[0]], n.host)
  {
    hide Sort, ByFirstToken;
    SortSorts(ByFirstToken(ring));
    MembersKept(ByFirstToken(ring), Sort(ByFirstToken(ring)));
    FirstTokenMember(ring, x);
    n :| n in ring && x == Keyed([n.tokens[0]], n.host);
  }

  lemma NodeKeyed(ring: seq<Node>, n: Node) returns (i: nat)
    requires AllTokens(ring) && n in ring
    ensures i < |Sort(ByFirstToken(ring))| && Sort(ByFirstToken(ring))[i] == Keyed([n.tokens[0]], n.host)
  {
    hide Sort, ByFirstToken;
    var x := Keyed([n.tokens[0]], n.host);
    SortSorts(ByFirstToken(ring));
    MembersKept(ByFirstToken(ring), Sort(ByFirstToken(ring)));
    FirstTokenMember(ring, x);
    i :| 0 <= i < |Sort(ByFirstToken(ring))| && Sort(ByFirstToken(ring))[i] == x;
  }

  /** The hosts paired without racks are in ascending order of their first tokens, for rings of any token counts. */
  lemma SortedByFirstToken(ring: seq<Node>, i: nat, j: nat)
    requires AllTokens(ring) && i < j < |ring|
    ensures exists a, b :: a in ring && b in ring && SortedHosts(ring)[i] == a.host && SortedHosts(ring)[j] == b.host && a.tokens[0] <= b.tokens[0]
  {
    hide Sort, ByFirstToken;
    var sorted := Sort(ByFirstToken(ring));
    SortSorts(ByFirstToken(ring));
    assert sorted[i] in sorted && sorted[j] in sorted;
    var a := KeyedNode(ring, sorted[i]);
    var b := KeyedNode(ring, sorted[j]);
    assert LexLe([a.tokens[0]], [b.tokens[0]]);
  }

  lemma NodeWithTokens(ring: seq<Node>, target: seq<Node>, n: Node) returns (m: Node)
    requires TokenKeys(ring) == TokenKeys(target) && n in target
    ensures m in ring && m.tokens == n.tokens
  {
    hide TokensKey;
    assert TokensKey(n.tokens) in TokenKeys(ring);
    m :| m in ring && TokensKey(m.tokens) == TokensKey(n.tokens);
    TokensKeyInjective(m.tokens, n.tokens);
  }

  lemma SortedKeysWithin(ring: seq<Node>, target: seq<Node>)
    requires AllTokens(ring) && AllTokens(target) && TokenKeys(ring) == TokenKeys(target)
    ensures KeySet(Sort(ByFirstToken(target))) <= KeySet(Sort(ByFirstToken(ring)))
  {
    hide Sort, ByFirstToken, TokenKeys, KeySet, AllTokens;
    var a, b := Sort(ByFirstToken(ring)), Sort(ByFirstToken(target));
    forall k | k in KeySet(b) ensures k in KeySet(a) {
      var j := KeyAt(b, k);
      var n := KeyedNode(target, b[j]);
      var m := NodeWithTokens(ring, target, n);
      var i := NodeKeyed(ring, m);
      KeyIn(a, i);
    }
  }

  /** The sorted rings carry the same first token at each position. */
  lemma SortedTokensAgree(ring: seq<Node>, target: seq<Node>)
    requires Dict(ring) && Dict(target) && AllTokens(ring) && AllTokens(target) && DistinctFirst(ring) && DistinctFirst(target)
    requires TokenKeys(ring) == TokenKeys(target)
    ensures var a, b := Sort(ByFirstToken(ring)), Sort(ByFirstToken(target));
            |a| == |b| && forall i :: 0 <= i < |a| ==> a[i].key == b[i].key
  {
    hide *;
    FirstTokensDistinct(ring);
    FirstTokensDistinct(target);
    SortOf(ByFirstToken(ring));
    SortOf(ByFirstToken(target));
    SortedKeysWithin(ring, target);
    SortedKeysWithin(target, ring);
    KeysAgree(Sort(ByFirstToken(ring)), Sort(ByFirstToken(target)));
  }

  /** Target n restores the backup host that owned exactly n's tokens. */
  ghost predicate Preserves(m: HostMap, ring: seq<Node>, n: Node) {
    n.host in m && exists b :: b in ring && b.tokens == n.tokens && m[n.host].source == [b.host]
  }

  lemma SortedPairs(ring: seq<Node>, target: seq<Node>, seeds: set<string>, n: Node) returns (b: Node)
    requires Dict(ring) && Dict(target) && AllTokens(ring) && AllTokens(target) && |ring| == |target|
    requires DistinctFirst(ring) && DistinctFirst(target) && TokenKeys(ring) == TokenKeys(target) && n in target
    ensures var m := Paired(SortedHosts(target), SortedHosts(ring), seeds);
            n.host in m && m[n.host].source == [b.host] && b in ring && b.tokens[0] == n.tokens[0]
  {
    hide Dict, DistinctFirst, TokenKeys, Sort, ByFirstToken, Paired, NoDup, SetOf, Hosts;
    SortedTokensAgree(ring, target);
    var i := NodeKeyed(target, n);
    var order := Sort(ByFirstToken(ring));
    assert order[i] in order;
    b := KeyedNode(ring, order[i]);
    assert [b.tokens[0]] == [n.tokens[0]];
    assert [b.tokens[0]][0] == [n.tokens[0]][0];
    SortedHostsOf(target);
    PairedExact(SortedHosts(target), SortedHosts(ring), seeds);
    assert SortedHosts(target)[i] == n.host && SortedHosts(ring)[i] == b.host;
  }

  lemma ByTokenMeans(ring: seq<Node>, target: seq<Node>, ignoreRacks: bool)
    requires Decide(ring, target, ignoreRacks) == ByToken && FirstCount(target) == Some(1)
    ensures TokenKeys(ring) == TokenKeys(target)
  {
    hide TokenKeys, Racks, AllTokens, AllUp;
  }

  /**
   Token-preserving restore: with one token per host, distinct tokens and racks ignored, whenever the
   fallback is not taken each target gets the data of the backup host that owned the same tokens.
   */
  lemma TokensPreserved(ring: seq<Node>, target: seq<Node>, ignoreRacks: bool, seeds: set<string>)
    requires Dict(ring) && Dict(target) && AllTokens(ring) && AllTokens(target)
    requires DistinctFirst(ring) && DistinctFirst(target)
    requires Decide(ring, target, ignoreRacks) == ByToken && FirstCount(target) == Some(1)
    ensures forall n :: n in target ==> Preserves(Paired(SortedHosts(target), SortedHosts(ring), seeds), ring, n)
  {
    ByTokenMeans(ring, target, ignoreRacks);
    hide Decide, Dict, TokenKeys, Paired, SortedHosts, FirstCount;
    forall n | n in target ensures Preserves(Paired(SortedHosts(target), SortedHosts(ring), seeds), ring, n) {
      var b := SortedPairs(ring, target, seeds, n);
      var same := NodeWithTokens(ring, target, n);
      assert same == b;
    }
  }

  // -- with racks

  function TokensOf(ring: seq<Node>, host: string): seq<int> {
    if ring == [] then []
    else if ring[0].host == host then ring[0].tokens
    else TokensOf(ring[1..], host)
  }

  /** The token lists, rack by rack in alphabetical order, each rack in dictionary order. */
  function RackTokens(ring: seq<Node>): (r: seq<seq<int>>)
    ensures |r| == |ring|
  {
    seq(|ring|, i requires 0 <= i < |ring| => TokensOf(ring, RackHosts(ring)[i]))
  }

  lemma {:induction false} TokensOfNode(ring: seq<Node>, n: Node)
    requires Dict(ring) && n in ring
    ensures TokensOf(ring, n.host) == n.tokens
  {
    if ring[0] != n {
      var i :| 0 <= i < |ring| && ring[i] == n;
      assert ring[1..][i - 1] == n;
      TokensOfNode(ring[1..], n);
    }
  }

  lemma RackHostNode(ring: seq<Node>, i: nat) returns (n: Node)
    requires Dict(ring) && i < |ring|
    ensures n in ring && n.host == RackHosts(ring)[i] && n.tokens == RackTokens(ring)[i]
  {
    hide Dict, RackHosts, NoDup, SetOf;
    RackHostsOf(ring);
    InSet(RackHosts(ring), i);
    n :| n in ring && n.host == RackHosts(ring)[i];
    TokensOfNode(ring, n);
  }

  lemma RackPosition(ring: seq<Node>, n: Node) returns (i: nat)
    requires Dict(ring) && n in ring
    ensures i < |ring| && RackHosts(ring)[i] == n.host && RackTokens(ring)[i] == n.tokens
  {
    hide Dict, RackHosts, NoDup, SetOf;
    RackHostsOf(ring);
    i := AtSet(RackHosts(ring), n.host);
    TokensOfNode(ring, n);
  }

  lemma RackPreservesAt(ring: seq<Node>, target: seq<Node>, seeds: set<string>, n: Node, i: nat)
    requires Dict(ring) && Dict(target) && |ring| == |target| && n in target && i < |ring|
    requires RackHosts(target)[i] == n.host && RackTokens(target)[i] == n.tokens
    ensures Preserves(Paired(RackHosts(target), RackHosts(ring), seeds), ring, n) <==> RackTokens(ring)[i] == RackTokens(target)[i]
  {
    hide Paired, RackHosts, RackTokens, NoDup, SetOf, Dict;
    RackHostsOf(target);
    PairedExact(RackHosts(target), RackHosts(ring), seeds);
    var b := RackHostNode(ring, i);
    forall c | c in ring && c.host == b.host ensures c.tokens == b.tokens {
      TokensOfNode(ring, b);
      TokensOfNode(ring, c);
    }
    var m := Paired(RackHosts(target), RackHosts(ring), seeds);
    assert m[n.host].source == [b.host];
    forall c: Node | [c.host] == [b.host] ensures c.host == b.host { assert [c.host][0] == [b.host][0]; }
  }

  /** With racks, tokens are preserved exactly when both tokenmaps list them alike, rack by rack. */
  lemma RackTokensPreserved(ring: seq<Node>, target: seq<Node>, seeds: set<string>)
    requires Dict(ring) && Dict(target) && |ring| == |target|
    ensures (forall n :: n in target ==> Preserves(Paired(RackHosts(target), RackHosts(ring), seeds), ring, n))
            <==> RackTokens(ring) == RackTokens(target)
  {
    hide Paired, RackHosts, RackTokens, Dict, Preserves;
    forall n | n in target
      ensures exists i: nat ::
                i < |ring| && RackHosts(target)[i] == n.host && RackTokens(target)[i] == n.tokens
                && (Preserves(Paired(RackHosts(target), RackHosts(ring), seeds), ring, n) <==> RackTokens(ring)[i] == RackTokens(target)[i])
    {
      var i := RackPosition(target, n);
      RackPreservesAt(ring, target, seeds, n, i);
    }
    if forall n :: n in target ==> Preserves(Paired(RackHosts(target), RackHosts(ring), seeds), ring, n) {
      forall i | 0 <= i < |ring| ensures RackTokens(ring)[i] == RackTokens(target)[i] {
        var n := RackHostNode(target, i);
        RackPreservesAt(ring, target, seeds, n, i);
      }
    }
  }

  /** A cluster of two hosts in one rack, and the same ring listed the other way round. */
  const BACKUP: seq<Node> := [Node("a", "r", [1], true), Node("b", "r", [2], true)]
  const TARGET: seq<Node> := [Node("x", "r", [2], true), Node("y", "r", [1], true)]

  lemma GroupedAppend(ring: seq<Node>, n: Node)
    ensures Grouped(ring + [n]) == AddHost(Grouped(ring), Codes(n.rack), n.host)
  {
    hide AddHost, Codes;
    assert (ring + [n])[..|ring|] == ring;
  }

  lemma TwoInOneRack(m: Node, n: Node)
    requires m.rack == n.rack
    ensures Racks([m, n]) == [Keyed(Codes(m.rack), [m.host, n.host])]
  {
    hide LexLe, Codes, Grouped;
    var key := Codes(m.rack);
    GroupedAppend([], m);
    GroupedAppend([m], n);
    GroupedNothing();
    assert [] + [m] == [m];
    assert [m] + [n] == [m, n];
    var first := [Keyed(key, [m.host])];
    assert Grouped([m]) == first;
    assert AddHost(first, key, n.host) == [Keyed(key, first[0].item + [n.host])] + first[1..];
    var one := Keyed(key, [m.host, n.host]);
    assert first[0].item + [n.host] == one.item && first[1..] == [];
    assert Grouped([m, n]) == [one];
    assert [one][..0] == [];
    assert Sort([one]) == Insert(Sort<seq<string>>([]), one);
  }

  lemma GroupedNothing()
    ensures Grouped([]) == []
  {
  }

  lemma SmallTokenKeys()
    ensures TokenKeys(BACKUP) == TokenKeys(TARGET)
  {
    hide TokensKey;
    forall k ensures k in TokenKeys(BACKUP) <==> k in TokenKeys(TARGET) {
      assert k in TokenKeys(BACKUP) <==> k == TokensKey([1]) || k == TokensKey([2]) by {
        assert BACKUP[0] in BACKUP && BACKUP[1] in BACKUP;
      }
      assert k in TokenKeys(TARGET) <==> k == TokensKey([1]) || k == TokensKey([2]) by {
        assert TARGET[0] in TARGET && TARGET[1] in TARGET;
      }
    }
  }

  lemma SmallDecision()
    ensures Decide(BACKUP, TARGET, false) == ByRack && Decide(BACKUP, TARGET, true) == ByToken
  {
    hide TokenKeys, Racks, Topology;
    SmallTokenKeys();
    TwoInOneRack(BACKUP[0], BACKUP[1]);
    TwoInOneRack(TARGET[0], TARGET[1]);
    assert Topology(Racks(BACKUP)) == Topology(Racks(TARGET));
  }

  /**
   Racks are not sorted by token: two rings with the same tokens, accepted for a rack-aware restore, can
   give each target the data of the host that owned the other token.
   */
  lemma RackMappingSwapsTokens(seeds: set<string>)
    ensures Decide(BACKUP, TARGET, false) == ByRack && Dict(BACKUP) && Dict(TARGET)
    ensures TokenKeys(BACKUP) == TokenKeys(TARGET)
    ensures var m := Paired(RackHosts(TARGET), RackHosts(BACKUP), seeds);
            && "x" in m && m["x"].source == ["a"] && "y" in m && m["y"].source == ["b"]
            && !Preserves(m, BACKUP, TARGET[0]) && !Preserves(m, BACKUP, TARGET[1])
  {
    hide TokenKeys, Racks, Paired, Decide, Zip;
    SmallDecision();
    SmallTokenKeys();
    SmallOrders();
    PairedExact(["x", "y"], ["a", "b"], seeds);
    var m := Paired(["x", "y"], ["a", "b"], seeds);
    assert ["x", "y"][0] == "x" && ["x", "y"][1] == "y";
    assert m["x"].source == ["a"] && m["y"].source == ["b"];
    assert ["a"][0] == "a" && ["b"][0] == "b";
  }

  lemma SmallOrders()
    ensures RackHosts(BACKUP) == ["a", "b"] && RackHosts(TARGET) == ["x", "y"]
  {
    hide Racks, Flat;
    TwoInOneRack(BACKUP[0], BACKUP[1]);
    TwoInOneRack(TARGET[0], TARGET[1]);
    FlatOne(Racks(BACKUP)[0]);
    FlatOne(Racks(TARGET)[0]);
  }

  // -- rack by rack

  lemma {:induction false} FlatAt(groups: seq<Keyed<seq<string>>>, i: nat, j: nat)
    requires i < |groups| && j < |groups[i].item|
    ensures |Flat(groups[..i])| + j < |Flat(groups)| && Flat(groups)[|Flat(groups[..i])| + j] == groups[i].item[j]
  {
    var front := groups[..|groups| - 1];
    if i < |groups| - 1 {
      FlatAt(front, i, j);
      assert front[..i] == groups[..i];
    }
  }

  lemma {:induction false} FlatSizes(a: seq<Keyed<seq<string>>>, b: seq<Keyed<seq<string>>>)
    requires SameSizes(a, b)
    ensures |Flat(a)| == |Flat(b)|
  {
    if a != [] { FlatSizes(a[..|a| - 1], b[..|b| - 1]); }
  }

  lemma SizesFromTopology(a: seq<Keyed<seq<string>>>, b: seq<Keyed<seq<string>>>)
    requires Topology(a) == Topology(b)
    ensures SameSizes(a, b)
  {
    hide Topology;
    assert |Topology(a)| == |Topology(b)|;
    forall i | 0 <= i < |a| ensures |a[i].item| == |b[i].item| { assert Topology(a)[i] == Topology(b)[i]; }
  }

  /** A rack-aware restore sends the j-th host of the i-th backup rack to the j-th host of the i-th target rack. */
  lemma RackToRack(ring: seq<Node>, target: seq<Node>, seeds: set<string>, i: nat, j: nat)
    requires Dict(ring) && Dict(target) && |ring| == |target| && Topology(Racks(ring)) == Topology(Racks(target))
    requires i < |Racks(target)| && j < |Racks(target)[i].item|
    ensures i < |Racks(ring)| && j < |Racks(ring)[i].item|
    ensures var m, t := Paired(RackHosts(target), RackHosts(ring), seeds), Racks(target)[i].item[j];
            t in m && m[t].source == [Racks(ring)[i].item[j]]
  {
    hide Racks, Flat, Topology, Paired, NoDup, SetOf, Dict;
    var br, tr := Racks(ring), Racks(target);
    SizesFromTopology(br, tr);
    FlatSizes(br[..i], tr[..i]);
    FlatAt(br, i, j);
    FlatAt(tr, i, j);
    RackHostsOf(target);
    PairedExact(RackHosts(target), RackHosts(ring), seeds);
  }

  ghost predicate InGroup(groups: seq<Keyed<seq<string>>>, key: seq<int>, host: string) {
    exists g :: g in groups && g.key == key && host in g.item
  }

  ghost predicate InRack(ring: seq<Node>, key: seq<int>, host: string) {
    exists n :: n in ring && Codes(n.rack) == key && n.host == host
  }

  lemma GroupSplit(head: Keyed<seq<string>>, tail: seq<Keyed<seq<string>>>, key: seq<int>, host: string)
    ensures InGroup([head] + tail, key, host) <==> (head.key == key && host in head.item) || InGroup(tail, key, host)
  {
    var groups := [head] + tail;
    assert head in groups && forall g :: g in tail ==> g in groups;
  }

  lemma {:induction false} AddHostMembers(groups: seq<Keyed<seq<string>>>, rack: seq<int>, x: string, key: seq<int>, host: string)
    ensures InGroup(AddHost(groups, rack, x), key, host) <==> InGroup(groups, key, host) || (key == rack && host == x)
  {
    hide InGroup;
    if groups == [] {
      assert [Keyed(rack, [x])] == [Keyed(rack, [x])] + [];
      GroupSplit(Keyed(rack, [x]), [], key, host);
      NoGroup(key, host);
    } else {
      var head, tail := groups[0], groups[1..];
      assert groups == [head] + tail;
      GroupSplit(head, tail, key, host);
      AddHostMembers(tail, rack, x, key, host);
      GroupSplit(Keyed(rack, head.item + [x]), tail, key, host);
      GroupSplit(head, AddHost(tail, rack, x), key, host);
    }
  }

  lemma NoGroup(key: seq<int>, host: string)
    ensures !InGroup([], key, host)
  {
  }

  lemma HeadTail(head: Keyed<seq<string>>, tail: seq<Keyed<seq<string>>>)
    ensures KeySet([head] + tail) == {head.key} + KeySet(tail)
    ensures DistinctKeys([head] + tail) <==> DistinctKeys(tail) && head.key !in KeySet(tail)
  {
    var all := [head] + tail;
    assert all[0] == head && all[1..] == tail;
    if DistinctKeys(all) {
      assert forall x :: x in tail ==> x.key != head.key;
    }
    if DistinctKeys(tail) && head.key !in KeySet(tail) {
      forall i, j | 0 <= i < j < |all| ensures all[i].key != all[j].key {
        assert all[j] == tail[j - 1] && tail[j - 1] in tail;
      }
    }
  }

  lemma {:induction false} AddHostDistinct(groups: seq<Keyed<seq<string>>>, rack: seq<int>, host: string)
    requires DistinctKeys(groups)
    ensures DistinctKeys(AddHost(groups, rack, host)) && KeySet(AddHost(groups, rack, host)) == KeySet(groups) + {rack}
  {
    hide DistinctKeys, KeySet;
    if groups == [] {
      FirstGroup(rack, host);
    } else {
      var head, tail := groups[0], groups[1..];
      assert groups == [head] + tail;
      HeadTail(head, tail);
      AddHostDistinct(tail, rack, host);
      HeadTail(Keyed(rack, head.item + [host]), tail);
      HeadTail(head, AddHost(tail, rack, host));
    }
  }

  lemma FirstGroup(rack: seq<int>, host: string)
    ensures DistinctKeys([Keyed(rack, [host])]) && KeySet([Keyed(rack, [host])]) == {rack} && KeySet<seq<string>>([]) == {}
  {
  }

  lemma {:induction false} GroupedMeans(ring: seq<Node>, key: seq<int>, host: string)
    ensures DistinctKeys(Grouped(ring))
    ensures InGroup(Grouped(ring), key, host) <==> InRack(ring, key, host)
  {
    hide AddHost, InGroup, Codes;
    if ring == [] {
      NoGroup(key, host);
    } else {
      var front, last := ring[..|ring| - 1], ring[|ring| - 1];
      assert ring == front + [last];
      GroupedMeans(front, key, host);
      AddHostMembers(Grouped(front), Codes(last.rack), last.host, key, host);
      AddHostDistinct(Grouped(front), Codes(last.rack), last.host);
      assert InRack(ring, key, host) <==> InRack(front, key, host) || (Codes(last.rack) == key && last.host == host);
    }
  }

  /** The racks come in alphabetical order, each name once, each with exactly its own hosts. */
  lemma RacksExact(ring: seq<Node>)
    ensures Ascending(Racks(ring)) && DistinctKeys(Racks(ring))
    ensures forall key, host :: InGroup(Racks(ring), key, host) <==> InRack(ring, key, host)
  {
    hide Sort, Grouped, DistinctKeys, Ascending, InRack;
    GroupedMeans(ring, [], "");
    SortOf(Grouped(ring));
    forall key, host ensures InGroup(Racks(ring), key, host) <==> InRack(ring, key, host) {
      GroupedMeans(ring, key, host);
    }
  }
}

/** The sharded cache `ShardThreadSafeLru` (src/indexer/cache.rs:56-97): a batch is grouped by sub-cache, and
    the groups are processed in the arbitrary order of a hash map. */
module ShardedLru {
  import opened Types
  import opened Keys
  import opened Lru

  /** The sub-cache a key lives in. */
  function Home(k: Key, n: nat): (h: nat)
    requires n > 0
    ensures h < n
  {
    Packed(k) % n
  }

  ghost predicate AllValid(maps: seq<LruCache>) {
    |maps| > 0 && forall i :: 0 <= i < |maps| ==> maps[i].Valid()
  }

  /** Key by key, in input order. */
  function OneByOne(maps: seq<LruCache>, ops: seq<Access>): (r: (seq<LruCache>, seq<Option<Blob>>))
    requires AllValid(maps)
    ensures AllValid(r.0) && |r.0| == |maps| && |r.1| == |ops|
  {
    if ops == [] then (maps, [])
    else
      var a := ops[|ops| - 1];
      var before := OneByOne(maps, ops[..|ops| - 1]);
      var h := Home(a.key, |maps|);
      var (c, v) := Apply(before.0[h], a);
      (before.0[h := c], before.1 + [v])
  }

  /** The accesses of one sub-cache, each with its position in the batch. */
  function Group(ops: seq<Access>, n: nat, h: nat): (g: seq<(nat, Access)>)
    requires n > 0
    ensures |g| <= |ops|
  {
    if ops == [] then []
    else
      var last := |ops| - 1;
      var before := Group(ops[..last], n, h);
      if Home(ops[last].key, n) == h then before + [(last, ops[last])] else before
  }

  function Accesses(g: seq<(nat, Access)>): seq<Access> {
    seq(|g|, i requires 0 <= i < |g| => g[i].1)
  }

  /** A group's j-th member is an access of the batch, and the members before it are those of the batch's prefix. */
  lemma {:induction false} GroupMember(ops: seq<Access>, n: nat, h: nat, j: nat)
    requires n > 0 && j < |Group(ops, n, h)|
    ensures var (i, a) := Group(ops, n, h)[j];
            i < |ops| && ops[i] == a && Home(a.key, n) == h && Group(ops[..i], n, h) == Group(ops, n, h)[..j]
  {
    var last := |ops| - 1;
    var before := Group(ops[..last], n, h);
    if j < |before| {
      GroupMember(ops[..last], n, h, j);
      var i := before[j].0;
      assert ops[..last][..i] == ops[..i];
    }
  }

  /** Every access is in the group of its sub-cache. */
  lemma {:induction false} GroupComplete(ops: seq<Access>, n: nat, i: nat) returns (j: nat)
    requires n > 0 && i < |ops|
    ensures var g := Group(ops, n, Home(ops[i].key, n)); j < |g| && g[j] == (i, ops[i])
  {
    var last := |ops| - 1;
    if i == last {
      j := |Group(ops[..last], n, Home(ops[i].key, n))|;
    } else {
      j := GroupComplete(ops[..last], n, i);
    }
  }

  /** Key by key, each sub-cache sees just its own group. */
  lemma {:induction false} OneByOneGroups(maps: seq<LruCache>, ops: seq<Access>, h: nat)
    requires AllValid(maps) && h < |maps|
    ensures OneByOne(maps, ops).0[h] == Run(maps[h], Accesses(Group(ops, |maps|, h))).0
  {
    if ops != [] {
      var last := |ops| - 1;
      OneByOneGroups(maps, ops[..last], h);
      var g := Group(ops, |maps|, h);
      if Home(ops[last].key, |maps|) == h {
        assert Accesses(g)[..|g| - 1] == Accesses(Group(ops[..last], |maps|, h));
      }
    }
  }

  /** The answer at position i depends on the earlier accesses of the same sub-cache only. */
  lemma {:induction false} OneByOneAnswer(maps: seq<LruCache>, ops: seq<Access>, i: nat)
    requires AllValid(maps) && i < |ops|
    ensures var h := Home(ops[i].key, |maps|);
            OneByOne(maps, ops).1[i] == Apply(Run(maps[h], Accesses(Group(ops[..i], |maps|, h))).0, ops[i]).1
  {
    var last := |ops| - 1;
    if i == last {
      OneByOneGroups(maps, ops[..last], Home(ops[i].key, |maps|));
    } else {
      OneByOneAnswer(maps, ops[..last], i);
      assert ops[..last][..i] == ops[..i];
    }
  }

  /** Processing a group's j-th member after the members before it. */
  lemma GroupStep(maps: seq<LruCache>, ops: seq<Access>, h: nat, j: nat)
    requires AllValid(maps) && h < |maps| && j < |Group(ops, |maps|, h)|
    ensures var g := Group(ops, |maps|, h);
            && g[j].0 < |ops| && Home(ops[g[j].0].key, |maps|) == h
            && Apply(Run(maps[h], Accesses(g[..j])).0, g[j].1)
               == (Run(maps[h], Accesses(g[..j + 1])).0, OneByOne(maps, ops).1[g[j].0])
  {
    var g := Group(ops, |maps|, h);
    GroupMember(ops, |maps|, h, j);
    OneByOneAnswer(maps, ops, g[j].0);
    assert Accesses(g[..j + 1])[..j] == Accesses(g[..j]);
  }

  /** The first j members of a group have their answers. */
  ghost predicate AnsweredTo(g: seq<(nat, Access)>, j: nat, want: seq<Option<Blob>>, answers: seq<Option<Blob>>)
    requires j <= |g| && |answers| == |want|
  {
    forall k :: 0 <= k < j ==> g[k].0 < |want| && answers[g[k].0] == want[g[k].0]
  }

  lemma GroupAnswered(ops: seq<Access>, n: nat, h: nat, want: seq<Option<Blob>>, answers: seq<Option<Blob>>)
    requires n > 0 && |answers| == |want| == |ops| && AnsweredTo(Group(ops, n, h), |Group(ops, n, h)|, want, answers)
    ensures forall i :: 0 <= i < |ops| && Home(ops[i].key, n) == h ==> answers[i] == want[i]
  {
    forall i | 0 <= i < |ops| && Home(ops[i].key, n) == h ensures answers[i] == want[i] {
      var j := GroupComplete(ops, n, i);
    }
  }

  /** A sub-cache without accesses is left alone. */
  lemma UntouchedHomes(maps: seq<LruCache>, ops: seq<Access>, touched: set<nat>)
    requires AllValid(maps) && forall h :: 0 <= h < |maps| && h !in touched ==> Group(ops, |maps|, h) == []
    ensures forall h :: 0 <= h < |maps| && h !in touched ==> OneByOne(maps, ops).0[h] == maps[h]
  {
    forall h | 0 <= h < |maps| && h !in touched ensures OneByOne(maps, ops).0[h] == maps[h] {
      OneByOneGroups(maps, ops, h);
    }
  }

  /** Every key lives only in its own sub-cache, and once. */
  ghost predicate AtHome(maps: seq<LruCache>) {
    && (forall h, k :: 0 <= h < |maps| && k in Contents(maps[h].entries) ==> Packed(k) % |maps| == h)
    && (forall h :: 0 <= h < |maps| ==> NoRepeat(maps[h].entries))
  }

  lemma {:induction false} KeysStayHome(maps: seq<LruCache>, ops: seq<Access>)
    requires AllValid(maps) && AtHome(maps)
    ensures AtHome(OneByOne(maps, ops).0)
  {
    if ops != [] {
      var a := ops[|ops| - 1];
      KeysStayHome(maps, ops[..|ops| - 1]);
      var c := OneByOne(maps, ops[..|ops| - 1]).0[Home(a.key, |maps|)];
      AccessNoRepeat(c, a);
      if a.Read? {
        ReadKeepsContents(c, a.key);
      } else {
        WriteContents(c, a.key, a.value);
      }
    }
  }

  class ShardThreadSafeLru {
    const maps: array<LruCache>

    constructor (shardNum: nat, cap: nat)
      requires shardNum > 0 && cap > 0
      ensures fresh(maps) && maps.Length == shardNum && AllValid(maps[..])
      ensures forall i :: 0 <= i < shardNum ==> maps[i] == LruCache(cap, [])
    {
      maps := new LruCache[shardNum](_ => LruCache(cap, []));
    }

    /** `batch_get` and `batch_put`, which differ only in the access they make: group, then one lock per group. */
    method Batch(ops: seq<Access>) returns (result: seq<Option<Blob>>)
      requires AllValid(maps[..])
      modifies maps
      ensures (maps[..], result) == OneByOne(old(maps[..]), ops)
    {
      var n := maps.Length;
      ghost var start := maps[..];
      ghost var spec := OneByOne(start, ops);
      var groups := GroupByHome(ops, n);

      result := seq(|ops|, i => None);
      var todo := groups.Keys;
      while todo != {}
        invariant todo <= groups.Keys && |result| == |ops|
        invariant forall h :: 0 <= h < n ==> maps[h] == if h in groups && h !in todo then spec.0[h] else start[h]
        invariant forall i :: 0 <= i < |ops| && Home(ops[i].key, n) !in todo ==> result[i] == spec.1[i]
        decreases |todo|
      {
        var h :| h in todo;
        var cache := maps[h];
        cache, result := ProcessGroup(start, ops, h, groups[h], cache, result);
        maps[h] := cache;
        todo := todo - {h};
      }
      UntouchedHomes(start, ops, groups.Keys);
      assert maps[..] == spec.0 && result == spec.1;
    }

    /** The grouping loop. */
    method GroupByHome(ops: seq<Access>, n: nat) returns (groups: map<nat, seq<(nat, Access)>>)
      requires n > 0
      ensures forall h :: h in groups ==> h < n && groups[h] == Group(ops, n, h)
      ensures forall h :: 0 <= h < n && h !in groups ==> Group(ops, n, h) == []
      ensures forall i :: 0 <= i < |ops| ==> Home(ops[i].key, n) in groups
    {
      groups := map[];
      for i := 0 to |ops|
        invariant forall h :: h in groups ==> h < n && groups[h] == Group(ops[..i], n, h)
        invariant forall h :: 0 <= h < n && h !in groups ==> Group(ops[..i], n, h) == []
        invariant forall j :: 0 <= j < i ==> Home(ops[j].key, n) in groups
      {
        var h := Home(ops[i].key, n);
        assert ops[..i + 1][..i] == ops[..i];
        groups := groups[h := (if h in groups then groups[h] else []) + [(i, ops[i])]];
      }
      assert ops[..|ops|] == ops;
    }

    /** One sub-cache's group, under its lock. */
    method ProcessGroup(ghost start: seq<LruCache>, ghost ops: seq<Access>, ghost h: nat, group: seq<(nat, Access)>,
                   cache: LruCache, answers: seq<Option<Blob>>)
      returns (cache': LruCache, answers': seq<Option<Blob>>)
      requires AllValid(start) && h < |start| && cache == start[h] && |answers| == |ops|
      requires group == Group(ops, |start|, h)
      ensures cache' == OneByOne(start, ops).0[h] && |answers'| == |ops|
      ensures forall i :: 0 <= i < |ops| ==>
        answers'[i] == if Home(ops[i].key, |start|) == h then OneByOne(start, ops).1[i] else answers[i]
    {
      ghost var want := OneByOne(start, ops).1;
      ghost var n := |start|;
      cache', answers' := cache, answers;
      for j := 0 to |group|
        invariant cache' == Run(start[h], Accesses(group[..j])).0 && |answers'| == |ops|
        invariant AnsweredTo(group, j, want, answers')
        invariant forall i :: 0 <= i < |ops| && Home(ops[i].key, n) != h ==> answers'[i] == answers[i]
      {
        GroupStep(start, ops, h, j);
        var (c, v) := Apply(cache', group[j].1);
        cache', answers' := c, answers'[group[j].0 := v];
      }
      assert group[..|group|] == group;
      OneByOneGroups(start, ops, h);
      GroupAnswered(ops, n, h, want, answers');
    }
  }
}

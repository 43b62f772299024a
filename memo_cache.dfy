/** The `cached_data` decorator: a key built from the function name and
    the printed arguments, a TTL check on the in-memory map first and on
    the pickle files second, and a store into both on a miss. The MD5 digest
    of the key string is left symbolic: entries are addressed by the key
    string itself, which the digest is a function of. Pickle files are an
    abstract map from key to entry; the clock is a parameter. */
module MemoCache {
  // ---------------------------------------------------------------------
  // The key string

  /** Python's `<` on str: lexicographic by code point. */
  predicate LexLess(a: string, b: string)
    decreases |a|
  {
    if a == [] then b != []
    else if b == [] then false
    else if a[0] != b[0] then a[0] < b[0]
    else LexLess(a[1..], b[1..])
  }

  lemma {:induction false} LexIrreflexive(a: string)
    ensures !LexLess(a, a)
    decreases |a|
  {
    if a != [] {
      LexIrreflexive(a[1..]);
    }
  }

  lemma {:induction false} LexAsymmetric(a: string, b: string)
    requires LexLess(a, b)
    ensures !LexLess(b, a)
    decreases |a|
  {
    if a != [] && b != [] && a[0] == b[0] {
      LexAsymmetric(a[1..], b[1..]);
    }
  }

  lemma {:induction false} LexTransitive(a: string, b: string, c: string)
    requires LexLess(a, b) && LexLess(b, c)
    ensures LexLess(a, c)
    decreases |a|
  {
    if a != [] && a[0] == b[0] && b[0] == c[0] {
      LexTransitive(a[1..], b[1..], c[1..]);
    }
  }

  lemma {:induction false} LexTotal(a: string, b: string)
    requires a != b
    ensures LexLess(a, b) || LexLess(b, a)
    decreases |a|
  {
    if a != [] && b != [] && a[0] == b[0] {
      assert a == [a[0]] + a[1..] && b == [b[0]] + b[1..];
      LexTotal(a[1..], b[1..]);
    }
  }

  /** Keyword arguments in call order: a dict, so every name occurs once. */
  predicate UniqueKeys(kw: seq<(string, string)>)
  {
    forall i, j :: 0 <= i < j < |kw| ==> kw[i].0 != kw[j].0
  }

  predicate StrictlySorted(kw: seq<(string, string)>)
  {
    forall i, j :: 0 <= i < j < |kw| ==> LexLess(kw[i].0, kw[j].0)
  }

  function InsertByKey(x: (string, string), s: seq<(string, string)>): seq<(string, string)>
  {
    if s == [] then [x]
    else if LexLess(s[0].0, x.0) then [s[0]] + InsertByKey(x, s[1..])
    else [x] + s
  }

  /** `sorted(kwargs.items())`: with distinct names this orders by name. */
  function SortByKey(s: seq<(string, string)>): seq<(string, string)>
  {
    if s == [] then [] else InsertByKey(s[0], SortByKey(s[1..]))
  }

  lemma {:induction false} InsertByKeyFacts(x: (string, string), s: seq<(string, string)>)
    requires StrictlySorted(s)
    requires forall i :: 0 <= i < |s| ==> s[i].0 != x.0
    ensures multiset(InsertByKey(x, s)) == multiset(s) + multiset{x}
    ensures StrictlySorted(InsertByKey(x, s))
  {
    InsertByKeyMultiset(x, s);
    InsertByKeySorted(x, s);
  }

  lemma {:induction false} InsertByKeyMultiset(x: (string, string), s: seq<(string, string)>)
    ensures multiset(InsertByKey(x, s)) == multiset(s) + multiset{x}
  {
    if s != [] && LexLess(s[0].0, x.0) {
      InsertByKeyMultiset(x, s[1..]);
      assert s == [s[0]] + s[1..];
    }
  }

  lemma {:induction false} InsertByKeyMembers(x: (string, string), s: seq<(string, string)>)
    ensures forall y :: y in InsertByKey(x, s) <==> y == x || y in s
  {
    if s != [] && LexLess(s[0].0, x.0) {
      InsertByKeyMembers(x, s[1..]);
      assert s == [s[0]] + s[1..];
    }
  }

  lemma {:induction false} InsertByKeySorted(x: (string, string), s: seq<(string, string)>)
    requires StrictlySorted(s)
    requires forall i :: 0 <= i < |s| ==> s[i].0 != x.0
    ensures StrictlySorted(InsertByKey(x, s))
  {
    if s != [] {
      if LexLess(s[0].0, x.0) {
        var rest := s[1..];
        InsertByKeySorted(x, rest);
        InsertByKeyMembers(x, rest);
        var r := InsertByKey(x, rest);
        assert InsertByKey(x, s) == [s[0]] + r;
        forall j | 0 <= j < |r|
          ensures LexLess(s[0].0, r[j].0)
        {
          assert r[j] in r;
          if r[j] != x {
            var k :| 0 <= k < |rest| && rest[k] == r[j];
            assert s[k + 1] == rest[k];
          }
        }
      } else {
        LexTotal(s[0].0, x.0);
        forall j | 0 <= j < |s|
          ensures LexLess(x.0, s[j].0)
        {
          if j > 0 {
            LexTransitive(x.0, s[0].0, s[j].0);
          }
        }
      }
    }
  }

  /** Sorting keeps exactly the given pairs and orders them strictly by name. */
  lemma {:induction false} SortByKeyFacts(s: seq<(string, string)>)
    requires UniqueKeys(s)
    ensures multiset(SortByKey(s)) == multiset(s)
    ensures StrictlySorted(SortByKey(s))
  {
    if s != [] {
      var rest := s[1..];
      assert UniqueKeys(rest) by {
        forall i, j | 0 <= i < j < |rest|
          ensures rest[i].0 != rest[j].0
        {
          assert rest[i] == s[i + 1] && rest[j] == s[j + 1];
        }
      }
      SortByKeyFacts(rest);
      var t := SortByKey(rest);
      forall i | 0 <= i < |t|
        ensures t[i].0 != s[0].0
      {
        assert t[i] in multiset(rest);
        var k :| 0 <= k < |rest| && rest[k] == t[i];
        assert s[k + 1] == rest[k];
      }
      InsertByKeyFacts(s[0], t);
      assert s == [s[0]] + rest;
    }
  }

  lemma HeadIsLeast(s: seq<(string, string)>, x: (string, string))
    requires StrictlySorted(s) && x in multiset(s)
    ensures x == s[0] || LexLess(s[0].0, x.0)
  {
    var k :| 0 <= k < |s| && s[k] == x;
  }

  lemma TailMultiset(a: seq<(string, string)>, b: seq<(string, string)>)
    requires a != [] && b != [] && a[0] == b[0] && multiset(a) == multiset(b)
    ensures multiset(a[1..]) == multiset(b[1..])
  {
    assert a == [a[0]] + a[1..] && b == [b[0]] + b[1..];
    assert multiset(a[1..]) == multiset(a) - multiset{a[0]};
    assert multiset(b[1..]) == multiset(b) - multiset{b[0]};
  }

  /** Two orderings of the same pairs that are both strictly sorted by name
      are the same sequence. */
  lemma {:induction false} SortedUnique(a: seq<(string, string)>, b: seq<(string, string)>)
    requires StrictlySorted(a) && StrictlySorted(b)
    requires multiset(a) == multiset(b)
    ensures a == b
    decreases |a|
  {
    if a != [] {
      assert |b| == |a| by { assert |multiset(a)| == |multiset(b)|; }
      assert a[0] in multiset(a);
      assert b[0] in multiset(b);
      HeadIsLeast(b, a[0]);
      HeadIsLeast(a, b[0]);
      if a[0] != b[0] {
        LexAsymmetric(a[0].0, b[0].0);
      }
      TailMultiset(a, b);
      var ta, tb := a[1..], b[1..];
      assert StrictlySorted(ta) by {
        forall i, j | 0 <= i < j < |ta| ensures LexLess(ta[i].0, ta[j].0) {
          assert ta[i] == a[i + 1] && ta[j] == a[j + 1];
        }
      }
      assert StrictlySorted(tb) by {
        forall i, j | 0 <= i < j < |tb| ensures LexLess(tb[i].0, tb[j].0) {
          assert tb[i] == b[i + 1] && tb[j] == b[j + 1];
        }
      }
      SortedUnique(ta, tb);
      assert a == [a[0]] + ta && b == [b[0]] + tb;
    }
  }

  /** The parts after the function name and the positional arguments. */
  function KwParts(kw: seq<(string, string)>): (r: seq<string>)
    ensures |r| == |kw|
  {
    seq(|kw|, i requires 0 <= i < |kw| => kw[i].0 + "=" + kw[i].1)
  }

  /** `"_".join(parts)`. */
  function Join(parts: seq<string>, sep: string): string
  {
    if parts == [] then ""
    else if |parts| == 1 then parts[0]
    else Join(parts[..|parts| - 1], sep) + sep + parts[|parts| - 1]
  }

  /** The string whose MD5 digest is the cache key; positional arguments and
      keyword values are given as their `str()` forms. */
  function KeyString(funcName: string, args: seq<string>, kwargs: seq<(string, string)>): string
  {
    Join([funcName] + args + KwParts(SortByKey(kwargs)), "_")
  }

  /** `_get_cache_key` up to the digest: appends the name, each argument
      and each sorted `k=v`, then joins them. */
  method GetCacheKey(funcName: string, args: seq<string>, kwargs: seq<(string, string)>) returns (key: string)
    requires UniqueKeys(kwargs)
    ensures key == KeyString(funcName, args, kwargs)
  {
    var parts := [funcName];
    for i := 0 to |args|
      invariant parts == [funcName] + args[..i]
    {
      parts := parts + [args[i]];
    }
    assert args[..|args|] == args;
    var items := SortByKey(kwargs);
    for i := 0 to |items|
      invariant parts == [funcName] + args + KwParts(items[..i])
    {
      assert KwParts(items[..i + 1]) == KwParts(items[..i]) + [items[i].0 + "=" + items[i].1];
      parts := parts + [items[i].0 + "=" + items[i].1];
    }
    assert items[..|items|] == items;
    key := Join(parts, "_");
  }

  /** The order in which keyword arguments are passed does not change the key. */
  lemma KeywordOrderIrrelevant(funcName: string, args: seq<string>, kw1: seq<(string, string)>, kw2: seq<(string, string)>)
    requires UniqueKeys(kw1) && UniqueKeys(kw2)
    requires multiset(kw1) == multiset(kw2)
    ensures KeyString(funcName, args, kw1) == KeyString(funcName, args, kw2)
  {
    SortByKeyFacts(kw1);
    SortByKeyFacts(kw2);
    SortedUnique(SortByKey(kw1), SortByKey(kw2));
  }

  /** The parts are joined without escaping, so an argument containing "_"
      shares its key with two arguments: f("a_b") and f("a", "b") hit the
      same entry. */
  lemma JoinedPartsCollide()
    ensures KeyString("f", ["a_b"], []) == KeyString("f", ["a", "b"], [])
  {
    assert SortByKey([]) == [];
    assert KwParts([]) == [];
    assert ["f"] + ["a_b"] + [] == ["f", "a_b"];
    assert ["f"] + ["a", "b"] + [] == ["f", "a", "b"];
    assert Join(["f", "a_b"], "_") == "f_a_b" by {
      assert ["f", "a_b"][..1] == ["f"];
    }
    assert Join(["f", "a", "b"], "_") == "f_a_b" by {
      assert ["f", "a", "b"][..2] == ["f", "a"];
      assert ["f", "a"][..1] == ["f"];
    }
  }

  // ---------------------------------------------------------------------
  // The cache

  /** A pickle file: readable, or failing with PickleError/EOFError. */
  datatype DiskEntry<V> = Intact(value: V, timestamp: real) | Corrupt

  /** How `pickle.dump` into the cache file ends: the file is written, or
      `open` fails and the old file stays, or the dump fails part-way and
      leaves a truncated file. Every failure is swallowed. */
  datatype WriteOutcome = Written | OpenFailed | PartialWrite

  datatype CacheState<V> = CacheState(memory: map<string, (V, real)>, disk: map<string, DiskEntry<V>>)

  /** One call of the wrapped function: the value returned and whether the
      function itself ran. */
  datatype CallResult<V> = CallResult(value: V, called: bool, state: CacheState<V>)

  predicate FreshInMemory<V>(s: CacheState<V>, key: string, ttl: real, now: real)
  {
    key in s.memory && now - s.memory[key].1 < ttl
  }

  predicate FreshOnDisk<V>(s: CacheState<V>, key: string, ttl: real, now: real)
  {
    key in s.disk && s.disk[key].Intact? && now - s.disk[key].timestamp < ttl
  }

  /** The wrapper: `now` is the clock at the look-ups, `later` the clock
      when a computed value is stored, `computed` what the function returns
      if it runs. */
  function Call<V>(s: CacheState<V>, key: string, ttl: real, now: real, later: real,
                   computed: V, write: WriteOutcome): CallResult<V>
  {
    if FreshInMemory(s, key, ttl, now) then CallResult(s.memory[key].0, false, s)
    else if FreshOnDisk(s, key, ttl, now) then
      var e := s.disk[key];
      CallResult(e.value, false, s.(memory := s.memory[key := (e.value, e.timestamp)]))
    else
      var disk := match write
        case Written => s.disk[key := Intact(computed, later)]
        case OpenFailed => s.disk
        case PartialWrite => s.disk[key := Corrupt];
      CallResult(computed, true, CacheState(s.memory[key := (computed, later)], disk))
  }

  /** A fresh memory entry is returned as it is and nothing changes. */
  lemma MemoryHit<V>(s: CacheState<V>, key: string, ttl: real, now: real, later: real, computed: V, write: WriteOutcome)
    requires FreshInMemory(s, key, ttl, now)
    ensures Call(s, key, ttl, now, later, computed, write) == CallResult(s.memory[key].0, false, s)
  {
  }

  /** A fresh disk entry is returned and promoted to memory with its
      original timestamp, not the current time. */
  lemma DiskHitKeepsTimestamp<V>(s: CacheState<V>, key: string, ttl: real, now: real, later: real, computed: V, write: WriteOutcome)
    requires !FreshInMemory(s, key, ttl, now) && FreshOnDisk(s, key, ttl, now)
    ensures var r := Call(s, key, ttl, now, later, computed, write);
      !r.called && r.value == s.disk[key].value
      && r.state.memory == s.memory[key := (s.disk[key].value, s.disk[key].timestamp)]
      && r.state.disk == s.disk
  {
  }

  /** Missing, stale and corrupt entries all run the function; its value is
      then in memory with the store time whatever happened to the file. */
  lemma MissRunsFunction<V>(s: CacheState<V>, key: string, ttl: real, now: real, later: real, computed: V, write: WriteOutcome)
    requires key !in s.memory || now - s.memory[key].1 >= ttl
    requires key !in s.disk || s.disk[key].Corrupt? || now - s.disk[key].timestamp >= ttl
    ensures var r := Call(s, key, ttl, now, later, computed, write);
      r.called && r.value == computed && r.state.memory == s.memory[key := (computed, later)]
      && (write.Written? ==> r.state.disk == s.disk[key := Intact(computed, later)])
      && (write.OpenFailed? ==> r.state.disk == s.disk)
  {
  }

  /** After a miss, a call with the same key within the TTL of the store
      returns the stored value without running the function. */
  lemma RepeatWithinTtl<V>(s: CacheState<V>, key: string, ttl: real, now: real, later: real,
                          computed: V, write: WriteOutcome, now2: real, later2: real, other: V, write2: WriteOutcome)
    requires Call(s, key, ttl, now, later, computed, write).called
    requires now2 - later < ttl
    ensures var s1 := Call(s, key, ttl, now, later, computed, write).state;
      var r := Call(s1, key, ttl, now2, later2, other, write2);
      !r.called && r.value == computed && r.state == s1
  {
  }

  /** A call changes only the entry under its own key. */
  lemma CallIsLocal<V>(s: CacheState<V>, key: string, ttl: real, now: real, later: real,
                       computed: V, write: WriteOutcome, other: string)
    requires other != key
    ensures var t := Call(s, key, ttl, now, later, computed, write).state;
      (other in t.memory <==> other in s.memory) && (other in s.memory ==> t.memory[other] == s.memory[other])
      && (other in t.disk <==> other in s.disk) && (other in s.disk ==> t.disk[other] == s.disk[other])
  {
  }

  /** The module-global memory map together with the cache directory. */
  class Cache<V> {
    var memory: map<string, (V, real)>
    var disk: map<string, DiskEntry<V>>

    constructor()
      ensures memory == map[] && disk == map[]
    {
      memory := map[];
      disk := map[];
    }

    /** The `wrapper` of `cached_data(ttl)` for one call. */
    method CachedCall(key: string, ttl: real, now: real, later: real, computed: V, write: WriteOutcome)
      returns (value: V, called: bool)
      modifies this
      ensures var r := Call(old(CacheState(memory, disk)), key, ttl, now, later, computed, write);
        value == r.value && called == r.called && CacheState(memory, disk) == r.state
    {
      if key in memory {
        var (v, timestamp) := memory[key];
        if now - timestamp < ttl {
          return v, false;
        }
      }
      if key in disk {
        match disk[key] {
          case Intact(v, timestamp) =>
            if now - timestamp < ttl {
              memory := memory[key := (v, timestamp)];
              return v, false;
            }
          case Corrupt =>
        }
      }
      memory := memory[key := (computed, later)];
      match write {
        case Written => disk := disk[key := Intact(computed, later)];
        case OpenFailed =>
        case PartialWrite => disk := disk[key := Corrupt];
      }
      return computed, true;
    }

    /** `clear_cache`: empties the memory map only. */
    method ClearCache()
      modifies this
      ensures memory == map[] && disk == old(disk)
    {
      memory := map[];
    }

    /** `clear_disk_cache`: every pickle file is removed; memory is untouched. */
    method ClearDiskCache()
      modifies this
      ensures disk == map[] && memory == old(memory)
    {
      disk := map[];
    }
  }
}

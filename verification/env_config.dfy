/**
  The connection settings handed to the PostgreSQL pool: the process
  environment filtered to the entries whose name contains `POSTG`, each name
  cut after its first six characters and lower-cased (`POSTG_USER` becomes
  `user`), collected into one record in which a later entry overrides an
  earlier one with the same resulting name.
 */
module EnvConfig {

  /** One environment entry, as `Object.entries` lists it: (name, value). */
  type Entry = (string, string)

  const Marker: string := "POSTG"

  /** Number of leading characters dropped from a kept name. */
  const PrefixLength: nat := 6

  /** `s.includes(pat)`: `pat` occurs in `s` as a contiguous piece. */
  function Includes(s: string, pat: string): bool
    decreases |s|
  {
    if |s| < |pat| then false
    else s[..|pat|] == pat || Includes(s[1..], pat)
  }

  /** `pat` occurs in `s` starting at index `i`. */
  predicate OccursAt(s: string, pat: string, i: int) {
    0 <= i <= |s| - |pat| && s[i..i + |pat|] == pat
  }

  lemma {:induction false} IncludesSpec(s: string, pat: string)
    ensures Includes(s, pat) <==> exists i :: OccursAt(s, pat, i)
    decreases |s|
  {
    if |s| >= |pat| {
      if s[..|pat|] == pat {
        assert OccursAt(s, pat, 0);
      } else if |s| > 0 {
        IncludesSpec(s[1..], pat);
        if exists i :: OccursAt(s, pat, i) {
          var i :| OccursAt(s, pat, i);
          assert i > 0;
          assert s[1..][i - 1..i - 1 + |pat|] == s[i..i + |pat|];
          assert OccursAt(s[1..], pat, i - 1);
        }
        if Includes(s[1..], pat) {
          var i :| OccursAt(s[1..], pat, i);
          assert s[i + 1..i + 1 + |pat|] == s[1..][i..i + |pat|];
          assert OccursAt(s, pat, i + 1);
        }
      }
    }
  }

  /** `s.slice(start)` for a non-negative start: empty once start passes the end.
      Positions count Unicode scalar values; JavaScript counts UTF-16 code
      units, which differ only past the Basic Multilingual Plane. */
  function SliceFrom(s: string, start: nat): (r: string)
    ensures |r| == if start >= |s| then 0 else |s| - start
    ensures forall i :: 0 <= i < |r| ==> r[i] == s[start + i]
  {
    if start >= |s| then [] else s[start..]
  }

  predicate IsUpper(c: char) {
    'A' <= c <= 'Z'
  }

  function LowerChar(c: char): char {
    if IsUpper(c) then (c as int + 32) as char else c
  }

  /** `toLowerCase` on ASCII letters. */
  function ToLower(s: string): (r: string)
    ensures |r| == |s|
    ensures forall i :: 0 <= i < |r| ==> !IsUpper(r[i])
    ensures forall i :: 0 <= i < |r| ==>
              if IsUpper(s[i]) then r[i] as int == s[i] as int + 32 else r[i] == s[i]
  {
    seq(|s|, i requires 0 <= i < |s| => LowerChar(s[i]))
  }

  lemma ToLowerIdempotent(s: string)
    ensures ToLower(ToLower(s)) == ToLower(s)
  {
  }

  predicate Kept(name: string) {
    Includes(name, Marker)
  }

  /** The settings name of an environment name: its first six characters
      dropped (nothing left when it is shorter), the rest lower-cased. */
  function NewName(name: string): (r: string)
    ensures |r| == if |name| <= PrefixLength then 0 else |name| - PrefixLength
    ensures forall i :: 0 <= i < |r| ==> r[i] == LowerChar(name[PrefixLength + i])
  {
    ToLower(SliceFrom(name, PrefixLength))
  }

  /** The entries whose name contains the marker, in order. */
  function KeepPostgres(entries: seq<Entry>): (r: seq<Entry>)
    ensures |r| <= |entries|
    ensures forall e :: e in r <==> e in entries && Kept(e.0)
  {
    if |entries| == 0 then []
    else
      var last := entries[|entries| - 1];
      KeepPostgres(entries[..|entries| - 1]) + (if Kept(last.0) then [last] else [])
  }

  function Rename(entries: seq<Entry>): seq<Entry> {
    seq(|entries|, i requires 0 <= i < |entries| => (NewName(entries[i].0), entries[i].1))
  }

  /** `Object.fromEntries`: each entry in turn sets its name, so the last one wins. */
  function FromEntries(entries: seq<Entry>): (r: map<string, string>)
    ensures r.Keys == set i | 0 <= i < |entries| :: entries[i].0
  {
    if |entries| == 0 then map[]
    else
      var last := entries[|entries| - 1];
      FromEntries(entries[..|entries| - 1])[last.0 := last.1]
  }

  /** The options object given to the pool. */
  function PoolSettings(environment: seq<Entry>): map<string, string> {
    FromEntries(Rename(KeepPostgres(environment)))
  }

  /** Entry `e` is kept and ends up under the name `key`. */
  predicate Maps(e: Entry, key: string) {
    Kept(e.0) && NewName(e.0) == key
  }

  /** Adding one more environment entry: it is ignored unless kept, and
      otherwise overrides whatever its new name held. */
  lemma PoolSettingsSnoc(environment: seq<Entry>, e: Entry)
    ensures PoolSettings(environment + [e])
         == if Kept(e.0) then PoolSettings(environment)[NewName(e.0) := e.1]
            else PoolSettings(environment)
  {
    var all := environment + [e];
    assert all[..|all| - 1] == environment;
    var kept := KeepPostgres(environment);
    if Kept(e.0) {
      var r := Rename(kept + [e]);
      assert r == Rename(kept) + [(NewName(e.0), e.1)];
      assert r[..|r| - 1] == Rename(kept);
    } else {
      assert kept + [] == kept;
    }
  }

  /** Some entry of `environment` maps to `key`. */
  predicate SomeMaps(environment: seq<Entry>, key: string) {
    exists i :: 0 <= i < |environment| && Maps(environment[i], key)
  }

  lemma SomeMapsSnoc(environment: seq<Entry>, e: Entry, key: string)
    ensures SomeMaps(environment + [e], key) <==> SomeMaps(environment, key) || Maps(e, key)
  {
    var all := environment + [e];
    if SomeMaps(environment, key) {
      var i :| 0 <= i < |environment| && Maps(environment[i], key);
      assert all[i] == environment[i];
    }
    if Maps(e, key) {
      assert all[|environment|] == e;
    }
    if SomeMaps(all, key) {
      var i :| 0 <= i < |all| && Maps(all[i], key);
      if i < |environment| {
        assert environment[i] == all[i];
      }
    }
  }

  /** A name is set exactly when some kept entry maps to it. */
  lemma {:induction false} PoolSettingsDomain(environment: seq<Entry>, key: string)
    ensures key in PoolSettings(environment) <==> SomeMaps(environment, key)
  {
    if |environment| > 0 {
      var init := environment[..|environment| - 1];
      var e := environment[|environment| - 1];
      assert environment == init + [e];
      PoolSettingsDomain(init, key);
      PoolSettingsSnoc(init, e);
      SomeMapsSnoc(init, e, key);
    }
  }

  /** No entry after position i maps to the name entry i maps to. */
  predicate LastMapping(environment: seq<Entry>, i: nat)
    requires i < |environment|
  {
    forall j :: i < j < |environment| ==> !Maps(environment[j], NewName(environment[i].0))
  }

  /** A name holds the value of the last kept entry mapping to it. */
  lemma {:induction false} PoolSettingsLastWins(environment: seq<Entry>, i: nat)
    requires i < |environment| && Kept(environment[i].0) && LastMapping(environment, i)
    ensures NewName(environment[i].0) in PoolSettings(environment)
    ensures PoolSettings(environment)[NewName(environment[i].0)] == environment[i].1
  {
    var init := environment[..|environment| - 1];
    var e := environment[|environment| - 1];
    assert environment == init + [e];
    PoolSettingsSnoc(init, e);
    if i < |init| {
      assert init[i] == environment[i];
      assert !Maps(e, NewName(environment[i].0));
      assert LastMapping(init, i) by {
        forall j | i < j < |init|
          ensures !Maps(init[j], NewName(init[i].0))
        {
          assert init[j] == environment[j];
        }
      }
      PoolSettingsLastWins(init, i);
    }
  }

  /** Filtering distributes over concatenation: `.filter` keeps the order
      and the repetitions of the entries it keeps. */
  lemma {:induction false} KeepPostgresAppend(a: seq<Entry>, b: seq<Entry>)
    ensures KeepPostgres(a + b) == KeepPostgres(a) + KeepPostgres(b)
    decreases |b|
  {
    if |b| == 0 {
      assert a + b == a;
    } else {
      var init := b[..|b| - 1];
      var last := b[|b| - 1];
      assert (a + b)[..|a + b| - 1] == a + init;
      assert (a + b)[|a + b| - 1] == last;
      KeepPostgresAppend(a, init);
    }
  }

  /** No entry after position i has the name entry i has. */
  predicate LastWithName(entries: seq<Entry>, i: nat)
    requires i < |entries|
  {
    forall j :: i < j < |entries| ==> entries[j].0 != entries[i].0
  }

  /** `Object.fromEntries` keeps, for each name, the value of its last entry. */
  lemma {:induction false} FromEntriesLastWins(entries: seq<Entry>, i: nat)
    requires i < |entries| && LastWithName(entries, i)
    ensures entries[i].0 in FromEntries(entries)
    ensures FromEntries(entries)[entries[i].0] == entries[i].1
  {
    var init := entries[..|entries| - 1];
    if i < |init| {
      assert init[i] == entries[i];
      assert LastWithName(init, i) by {
        forall j | i < j < |init|
          ensures init[j].0 != init[i].0
        {
          assert init[j] == entries[j];
        }
      }
      FromEntriesLastWins(init, i);
    }
  }

  /** Entries whose name lacks the marker never matter. */
  lemma {:induction false} UnkeptIgnored(environment: seq<Entry>)
    ensures PoolSettings(environment) == PoolSettings(KeepPostgres(environment))
  {
    if |environment| > 0 {
      var init := environment[..|environment| - 1];
      var e := environment[|environment| - 1];
      assert environment == init + [e];
      UnkeptIgnored(init);
      PoolSettingsSnoc(init, e);
      var k := KeepPostgres(init);
      assert KeepPostgres(k) == k by {
        KeepPostgresIdempotent(init);
      }
      if Kept(e.0) {
        PoolSettingsSnoc(k, e);
      } else {
        assert KeepPostgres(environment) == k;
      }
    }
  }

  lemma {:induction false} KeepPostgresIdempotent(environment: seq<Entry>)
    ensures KeepPostgres(KeepPostgres(environment)) == KeepPostgres(environment)
    ensures forall i :: 0 <= i < |KeepPostgres(environment)| ==> Kept(KeepPostgres(environment)[i].0)
  {
    if |environment| > 0 {
      var init := environment[..|environment| - 1];
      var e := environment[|environment| - 1];
      KeepPostgresIdempotent(init);
      var k := KeepPostgres(init);
      if Kept(e.0) {
        var k' := k + [e];
        assert KeepPostgres(environment) == k';
        assert k'[..|k'| - 1] == k;
        assert KeepPostgres(k') == KeepPostgres(k) + [e];
      } else {
        assert KeepPostgres(environment) == k;
      }
    }
  }
}

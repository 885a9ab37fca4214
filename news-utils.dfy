/**
 * String and list helpers of the lab-news side: relative times, ellipsis
 * truncation, HTML tag removal and de-duplication by a key.
 */
module NewsUtils {
  import opened Js

  const Minute := 60
  const Hour := 3600
  const Day := 86400
  const Week := 604800

  /**
   * `formatRelativeTime`: whole seconds elapsed, floored, then minutes,
   * hours, days and weeks each floored from the unit before; older than four
   * weeks gives the locale date, which is a parameter.
   */
  function FormatRelativeTime(nowMs: int, pastMs: int, localeDate: string): string {
    var seconds := (nowMs - pastMs) / 1000;
    if seconds < 60 then "just now"
    else
      var minutes := seconds / 60;
      if minutes < 60 then NatToString(minutes) + "m ago"
      else
        var hours := minutes / 60;
        if hours < 24 then NatToString(hours) + "h ago"
        else
          var days := hours / 24;
          if days < 7 then NatToString(days) + "d ago"
          else
            var weeks := days / 7;
            if weeks < 4 then NatToString(weeks) + "w ago"
            else localeDate
  }

  /**
   * The buckets by elapsed seconds `s`, each read off `s` directly: under a
   * minute "just now", then whole minutes below an hour, whole hours below a
   * day, whole days below a week, whole weeks below four weeks, and the
   * locale date beyond.
   */
  lemma RelativeTimeBuckets(nowMs: int, pastMs: int, localeDate: string)
    ensures var s := (nowMs - pastMs) / 1000;
            var r := FormatRelativeTime(nowMs, pastMs, localeDate);
            && (s < Minute ==> r == "just now")
            && (Minute <= s < Hour ==> r == NatToString(s / Minute) + "m ago")
            && (Hour <= s < Day ==> r == NatToString(s / Hour) + "h ago")
            && (Day <= s < Week ==> r == NatToString(s / Day) + "d ago")
            && (Week <= s < 4 * Week ==> r == NatToString(s / Week) + "w ago")
            && (s >= 4 * Week ==> r == localeDate)
  {
    var s := (nowMs - pastMs) / 1000;
    if s >= 60 {
      var m := s / 60;
      var h := m / 60;
      var d := h / 24;
      var w := d / 7;
      assert h == s / 3600 && d == s / 86400 && w == s / 604800;
      assert m < 60 <==> s < 3600;
      assert h < 24 <==> s < 86400;
      assert d < 7 <==> s < 604800;
      assert w < 4 <==> s < 2419200;
    }
  }

  /**
   * `truncate`: the text itself when it fits, otherwise its first
   * `maxLength` characters (none for a negative bound) followed by "...".
   */
  function Truncate(text: string, maxLength: int): (r: string)
    ensures |text| <= maxLength ==> r == text
    ensures |text| > maxLength ==>
              && |r| == (if maxLength < 0 then 0 else maxLength) + 3
              && IsPrefix(r[..|r| - 3], text) && r[|r| - 3..] == "..."
  {
    if |text| <= maxLength then text
    else
      var keep := if maxLength < 0 then 0 else maxLength;
      text[..keep] + "..."
  }

  /**
   * `html.replace(/<[^>]*>/g, '')`: a '<' with a '>' somewhere after it
   * starts a tag that runs to the first such '>' and is removed; a '<' with
   * none after it stays.
   */
  function StripHtml(s: string): (r: string)
    ensures |r| <= |s|
    ensures forall c :: c in r ==> c in s
    decreases |s|
  {
    if s == [] then []
    else if s[0] == '<' && IndexOf(s, '>') < |s| then StripHtml(s[IndexOf(s, '>') + 1..])
    else [s[0]] + StripHtml(s[1..])
  }

  /** No '<' is followed, anywhere later, by a '>'. */
  predicate NoTag(s: string) {
    forall i, j :: 0 <= i < j < |s| && s[i] == '<' ==> s[j] != '>'
  }

  /** An input without '<' comes back unchanged. */
  lemma {:induction false} StripHtmlPlain(s: string)
    requires '<' !in s
    ensures StripHtml(s) == s
  {
    if s != [] {
      StripHtmlPlain(s[1..]);
    }
  }

  /** The output holds no tag left to remove. */
  lemma {:induction false} StripHtmlComplete(s: string)
    ensures NoTag(StripHtml(s))
    decreases |s|
  {
    if s == [] {
    } else if s[0] == '<' && IndexOf(s, '>') < |s| {
      StripHtmlComplete(s[IndexOf(s, '>') + 1..]);
    } else {
      var rest := StripHtml(s[1..]);
      StripHtmlComplete(s[1..]);
      var r := [s[0]] + rest;
      forall i, j | 0 <= i < j < |r| && r[i] == '<'
        ensures r[j] != '>'
      {
        if i == 0 {
          assert IndexOf(s, '>') == |s|;
          assert r[j] == rest[j - 1] && r[j] in rest;
        } else {
          assert r[i] == rest[i - 1] && r[j] == rest[j - 1];
        }
      }
    }
  }

  /** Text without tags comes back unchanged, so stripping twice is stripping once. */
  lemma {:induction false} StripHtmlNoTag(s: string)
    requires NoTag(s)
    ensures StripHtml(s) == s
    decreases |s|
  {
    if s != [] {
      assert NoTag(s[1..]) by {
        forall i, j | 0 <= i < j < |s[1..]| && s[1..][i] == '<'
          ensures s[1..][j] != '>'
        {
          assert s[i + 1] == '<';
        }
      }
      StripHtmlNoTag(s[1..]);
      if s[0] == '<' {
        assert IndexOf(s, '>') == |s| by {
          if IndexOf(s, '>') < |s| {
            assert s[IndexOf(s, '>')] == '>';
          }
        }
      }
    }
  }

  lemma StripHtmlIdempotent(s: string)
    ensures StripHtml(StripHtml(s)) == StripHtml(s)
  {
    StripHtmlComplete(s);
    StripHtmlNoTag(StripHtml(s));
  }

  /** The keys of the items. */
  function KeysOf<T, K(==)>(s: seq<T>, key: T -> K): set<K> {
    set i | 0 <= i < |s| :: key(s[i])
  }

  /** The items whose key was not seen before, in order: the reference for `deduplicateByKey`. */
  function Dedup<T, K(==)>(s: seq<T>, key: T -> K): (r: seq<T>)
    ensures |r| <= |s|
  {
    if s == [] then []
    else
      var p := s[..|s| - 1];
      if key(s[|s| - 1]) in KeysOf(p, key) then Dedup(p, key) else Dedup(p, key) + [s[|s| - 1]]
  }

  /** `deduplicateByKey`: a `seen` set grows as the items are filtered. */
  method DeduplicateByKey<T, K(==)>(items: seq<T>, key: T -> K) returns (r: seq<T>)
    ensures r == Dedup(items, key)
  {
    var seen: set<K> := {};
    r := [];
    var i := 0;
    while i < |items|
      invariant 0 <= i <= |items|
      invariant seen == KeysOf(items[..i], key)
      invariant r == Dedup(items[..i], key)
    {
      var value := key(items[i]);
      assert items[..i + 1][..i] == items[..i];
      if value !in seen {
        seen := seen + {value};
        r := r + [items[i]];
      }
      assert items[..i + 1] == items[..i] + [items[i]];
      KeysOfSnoc(items[..i], items[i], key);
      i := i + 1;
    }
    assert items[..i] == items;
  }

  lemma KeysOfSnoc<T, K>(s: seq<T>, x: T, key: T -> K)
    ensures KeysOf(s + [x], key) == KeysOf(s, key) + {key(x)}
  {
    var t := s + [x];
    assert forall i :: 0 <= i < |s| ==> t[i] == s[i];
    assert t[|s|] == x;
  }

  /** Every key of the input survives. */
  lemma {:induction false} DedupKeys<T, K>(s: seq<T>, key: T -> K)
    ensures KeysOf(Dedup(s, key), key) == KeysOf(s, key)
  {
    if s != [] {
      var p := s[..|s| - 1];
      DedupKeys(p, key);
      assert s == p + [s[|s| - 1]];
      KeysOfSnoc(p, s[|s| - 1], key);
      KeysOfSnoc(Dedup(p, key), s[|s| - 1], key);
    }
  }

  /** The output's keys are pairwise distinct. */
  lemma {:induction false} DedupDistinct<T, K>(s: seq<T>, key: T -> K)
    ensures var r := Dedup(s, key);
            forall i, j :: 0 <= i < j < |r| ==> key(r[i]) != key(r[j])
  {
    if s != [] {
      var p := s[..|s| - 1];
      DedupDistinct(p, key);
      DedupKeys(p, key);
      var r := Dedup(p, key);
      if key(s[|s| - 1]) !in KeysOf(p, key) {
        var r' := r + [s[|s| - 1]];
        forall i, j | 0 <= i < j < |r'|
          ensures key(r'[i]) != key(r'[j])
        {
          if j == |r| {
            assert key(r[i]) in KeysOf(r, key);
          }
        }
      }
    }
  }

  /** Position `i` holds the first item of its key. */
  ghost predicate FirstOfKey<T, K>(s: seq<T>, key: T -> K, i: nat) {
    i < |s| && key(s[i]) !in KeysOf(s[..i], key)
  }

  /** `idx` lists increasing positions of `s` whose items make up `r`, each the first of its key. */
  ghost predicate Picks<T, K>(s: seq<T>, key: T -> K, r: seq<T>, idx: seq<nat>) {
    && |idx| == |r|
    && (forall j :: 0 <= j < |idx| ==> FirstOfKey(s, key, idx[j]) && r[j] == s[idx[j]])
    && (forall i, j :: 0 <= i < j < |idx| ==> idx[i] < idx[j])
  }

  /** Picks from a prefix are picks from the whole. */
  lemma PicksExtend<T, K>(p: seq<T>, x: T, key: T -> K, r: seq<T>, idx: seq<nat>)
    requires Picks(p, key, r, idx)
    ensures Picks(p + [x], key, r, idx)
  {
    var s := p + [x];
    forall j | 0 <= j < |idx|
      ensures FirstOfKey(s, key, idx[j]) && r[j] == s[idx[j]]
    {
      assert s[..idx[j]] == p[..idx[j]];
    }
  }

  /**
   * The output keeps relative order and each item it keeps is the first of
   * its key: `idx` lists the kept positions, increasing.
   */
  lemma {:induction false} DedupFirst<T, K>(s: seq<T>, key: T -> K)
    ensures exists idx: seq<nat> :: Picks(s, key, Dedup(s, key), idx)
  {
    if s != [] {
      var p := s[..|s| - 1];
      var x := s[|s| - 1];
      assert s == p + [x];
      DedupFirst(p, key);
      var r := Dedup(p, key);
      var idx: seq<nat> :| Picks(p, key, r, idx);
      PicksExtend(p, x, key, r, idx);
      if key(x) !in KeysOf(p, key) {
        var idx' := idx + [|p|];
        assert FirstOfKey(s, key, |p|);
        assert Dedup(s, key) == r + [x];
        assert Picks(s, key, r + [x], idx');
      } else {
        assert Dedup(s, key) == r;
        assert Picks(s, key, r, idx);
      }
    } else {
      assert Dedup(s, key) == [];
      assert Picks(s, key, [], []);
    }
  }
}

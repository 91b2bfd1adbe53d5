/**
 * The parts of Go's `strings` package the program relies on.
 *
 * A Dafny `string` stands for a Go string with one element per byte, so `|s|`
 * is Go's `len(s)` and `s[..k]` is Go's byte slice `s[:k]`. Whitespace is the
 * six ASCII white-space bytes that `strings.Fields` and `strings.TrimSpace`
 * recognise without decoding UTF-8.
 */
module Strings {

  predicate IsSpace(c: char) {
    c == ' ' || c == '\t' || c == '\n' || c == '\U{0B}' || c == '\U{0C}' || c == '\r'
  }

  /** `strings.HasPrefix`: Dafny's `<=` on sequences is the prefix relation. */
  predicate HasPrefix(s: string, prefix: string) {
    prefix <= s
  }

  predicate HasSuffix(s: string, suffix: string) {
    |suffix| <= |s| && s[|s| - |suffix|..] == suffix
  }

  /** `strings.TrimPrefix`: removes `prefix` once if present, else leaves `s` alone. */
  function TrimPrefix(s: string, prefix: string): (r: string)
    ensures HasPrefix(s, prefix) ==> s == prefix + r
    ensures !HasPrefix(s, prefix) ==> r == s
  {
    if prefix <= s then s[|prefix|..] else s
  }

  /** `strings.TrimSuffix`. */
  function TrimSuffix(s: string, suffix: string): (r: string)
    ensures HasSuffix(s, suffix) ==> s == r + suffix
    ensures !HasSuffix(s, suffix) ==> r == s
  {
    if HasSuffix(s, suffix) then s[..|s| - |suffix|] else s
  }

  predicate AllSpace(s: string) {
    forall i :: 0 <= i < |s| ==> IsSpace(s[i])
  }

  function TrimLeft(s: string): (r: string)
    ensures |r| <= |s| && r == s[|s| - |r|..]
    ensures AllSpace(s[..|s| - |r|])
    ensures r == [] || !IsSpace(r[0])
  {
    if s == [] || !IsSpace(s[0]) then s else TrimLeft(s[1..])
  }

  function TrimRight(s: string): (r: string)
    ensures r <= s
    ensures AllSpace(s[|r|..])
    ensures r == [] || !IsSpace(r[|r| - 1])
  {
    if s == [] || !IsSpace(s[|s| - 1]) then s
    else
      var r := TrimRight(s[..|s| - 1]);
      assert s[|r|..] == s[..|s| - 1][|r|..] + [s[|s| - 1]];
      r
  }

  /** `r` is `s` with some white space, and only white space, cut from each end. */
  predicate IsTrimOf(r: string, s: string) {
    exists i, j :: 0 <= i <= j <= |s| && r == s[i..j] && AllSpace(s[..i]) && AllSpace(s[j..])
  }

  /**
   * `strings.TrimSpace`: the result is `s` with its leading and trailing
   * white space removed, and nothing else.
   */
  function TrimSpace(s: string): (r: string)
    ensures r == [] || (!IsSpace(r[0]) && !IsSpace(r[|r| - 1]))
    ensures IsTrimOf(r, s)
  {
    var l := TrimLeft(s);
    var r := TrimRight(l);
    var i := |s| - |l|;
    var j := i + |r|;
    assert r == s[i..j] && s[j..] == l[|r|..];
    r
  }

  /** True when `s` has only white space: Go's `strings.TrimSpace(s) == ""`. */
  lemma TrimSpaceEmpty(s: string)
    ensures TrimSpace(s) == [] <==> AllSpace(s)
  {
    var l := TrimLeft(s);
    if TrimSpace(s) == [] {
      assert TrimRight(l) == [];
      assert l == [];
      assert s == s[..|s| - |l|];
    } else if AllSpace(s) {
      assert s == [] || IsSpace(s[0]);
      TrimLeftAllSpace(s);
    }
  }

  lemma TrimLeftAllSpace(s: string)
    requires AllSpace(s)
    ensures TrimLeft(s) == []
  {
    if s != [] {
      assert AllSpace(s[1..]) by {
        forall i | 0 <= i < |s| - 1 ensures IsSpace(s[1..][i]) {
          assert s[1..][i] == s[i + 1];
        }
      }
      TrimLeftAllSpace(s[1..]);
    }
  }

  /** A field of `strings.Fields`: a non-empty run without white space. */
  predicate IsWord(w: string) {
    |w| > 0 && forall i :: 0 <= i < |w| ==> !IsSpace(w[i])
  }

  /** The longest prefix of `s` that contains no white space. */
  function Word(s: string): (w: string)
    ensures w <= s
    ensures forall i :: 0 <= i < |w| ==> !IsSpace(w[i])
    ensures |w| < |s| ==> IsSpace(s[|w|])
  {
    if s == [] || IsSpace(s[0]) then [] else [s[0]] + Word(s[1..])
  }

  /** `strings.Fields`: the maximal white-space-free runs of `s`, in order. */
  function Fields(s: string): (ws: seq<string>)
    ensures forall i :: 0 <= i < |ws| ==> IsWord(ws[i])
    decreases |s|
  {
    if s == [] then []
    else if IsSpace(s[0]) then Fields(s[1..])
    else
      var w := Word(s);
      [w] + Fields(s[|w|..])
  }

  /** `strings.Join`. */
  function Join(parts: seq<string>, sep: string): string
  {
    if parts == [] then ""
    else if |parts| == 1 then parts[0]
    else parts[0] + sep + Join(parts[1..], sep)
  }

  /**
   * A string in the normal form `strings.Join(strings.Fields(s), " ")`
   * produces: the only white space is a single space between two non-spaces.
   */
  predicate Normalized(s: string) {
    && (forall i :: 0 <= i < |s| && IsSpace(s[i]) ==> s[i] == ' ')
    && (|s| > 0 ==> s[0] != ' ' && s[|s| - 1] != ' ')
    && (forall i :: 0 < i < |s| && s[i] == ' ' ==> s[i - 1] != ' ')
  }

  /** Whitespace normalisation: collapse runs to one space and trim both ends. */
  function Normalize(s: string): (r: string)
    ensures Normalized(r)
    ensures AllSpace(s) <==> r == []
  {
    JoinWordsNormalized(Fields(s));
    FieldsEmpty(s);
    JoinWordsEmpty(Fields(s));
    Join(Fields(s), " ")
  }

  lemma {:induction false} FieldsEmpty(s: string)
    ensures Fields(s) == [] <==> AllSpace(s)
    decreases |s|
  {
    if s != [] {
      FieldsEmpty(s[1..]);
      assert AllSpace(s) <==> IsSpace(s[0]) && AllSpace(s[1..]) by {
        if IsSpace(s[0]) && AllSpace(s[1..]) {
          forall i | 0 <= i < |s| ensures IsSpace(s[i]) {
            if i > 0 { assert s[i] == s[1..][i - 1]; }
          }
        }
      }
    }
  }

  lemma JoinWordsEmpty(ws: seq<string>)
    requires forall i :: 0 <= i < |ws| ==> IsWord(ws[i])
    ensures Join(ws, " ") == [] <==> ws == []
  {
  }

  lemma {:induction false} JoinWordsNormalized(ws: seq<string>)
    requires forall i :: 0 <= i < |ws| ==> IsWord(ws[i])
    ensures Normalized(Join(ws, " "))
    ensures ws != [] ==> Join(ws, " ") != [] && Join(ws, " ")[0] == ws[0][0]
  {
    if |ws| > 1 {
      var w, rest := ws[0], Join(ws[1..], " ");
      JoinWordsNormalized(ws[1..]);
      var s := w + " " + rest;
      assert Join(ws, " ") == s;
      assert s[|w|] == ' ';
      forall i | 0 <= i < |s| && IsSpace(s[i]) ensures s[i] == ' ' {
        if i > |w| { assert s[i] == rest[i - |w| - 1]; }
      }
      forall i | 0 < i < |s| && s[i] == ' ' ensures s[i - 1] != ' ' {
        if i > |w| + 1 {
          assert s[i] == rest[i - |w| - 1] && s[i - 1] == rest[i - |w| - 2];
        }
      }
      assert s[|s| - 1] == rest[|rest| - 1];
    }
  }

  /** Normalisation leaves a string that is already normal unchanged. */
  lemma {:induction false} NormalizedFixpoint(s: string)
    requires Normalized(s)
    ensures Join(Fields(s), " ") == s
    decreases |s|
  {
    if s != [] {
      var w := Word(s);
      assert |w| > 0;
      if |w| < |s| {
        var t := s[|w| + 1..];
        assert s[|w|] == ' ';
        assert t != [] && t[0] != ' ';
        assert Normalized(t) by {
          forall i | 0 <= i < |t| && IsSpace(t[i]) ensures t[i] == ' ' {
            assert t[i] == s[i + |w| + 1];
          }
          forall i | 0 < i < |t| && t[i] == ' ' ensures t[i - 1] != ' ' {
            assert t[i] == s[i + |w| + 1] && t[i - 1] == s[i + |w|];
          }
          assert t[|t| - 1] == s[|s| - 1];
        }
        NormalizedFixpoint(t);
        assert s[|w|..][1..] == t;
        assert Fields(s[|w|..]) == Fields(t);
        assert !IsSpace(t[0]);
        assert Fields(t) != [];
        assert Fields(s) == [w] + Fields(t);
        assert s == w + " " + t;
      } else {
        assert w == s;
        assert s[|w|..] == [];
        assert Fields(s) == [w];
      }
    }
  }

  /** Normalising twice is normalising once. */
  lemma NormalizeIdempotent(s: string)
    ensures Normalize(Normalize(s)) == Normalize(s)
  {
    NormalizedFixpoint(Normalize(s));
  }

  /** ASCII lower-casing, the folding SQLite's LIKE and Go's ToLower agree on. */
  function LowerChar(c: char): char {
    if 'A' <= c <= 'Z' then (c as int - 'A' as int + 'a' as int) as char else c
  }

  function Lower(s: string): (r: string)
    ensures |r| == |s|
    ensures forall i :: 0 <= i < |s| ==> r[i] == LowerChar(s[i])
  {
    if s == [] then [] else [LowerChar(s[0])] + Lower(s[1..])
  }

  /** Lower-casing works character by character, so it distributes over concatenation. */
  lemma LowerAppend(a: string, b: string)
    ensures Lower(a + b) == Lower(a) + Lower(b)
  {
    forall i | 0 <= i < |a + b| ensures Lower(a + b)[i] == (Lower(a) + Lower(b))[i] {
      if i >= |a| {
        assert (a + b)[i] == b[i - |a|];
      }
    }
  }

  /** `strings.Contains`: `needle` occurs in `s` at some offset. */
  predicate Contains(s: string, needle: string)
    decreases |s|
  {
    needle <= s || (s != [] && Contains(s[1..], needle))
  }

  /** Case-insensitive (ASCII) substring test. */
  predicate ContainsFold(s: string, needle: string) {
    Contains(Lower(s), Lower(needle))
  }

  /** `needle` occurs in `s` starting at offset `i`. */
  predicate OccursAt(s: string, needle: string, i: int) {
    0 <= i <= |s| - |needle| && s[i..i + |needle|] == needle
  }

  /** The recursive `Contains` agrees with the offset-based reading of "substring". */
  lemma {:induction false} ContainsAt(s: string, needle: string)
    ensures Contains(s, needle) <==> exists i :: OccursAt(s, needle, i)
    decreases |s|
  {
    if needle <= s {
      assert OccursAt(s, needle, 0);
    }
    if s != [] {
      ContainsAt(s[1..], needle);
      if Contains(s[1..], needle) {
        var i :| OccursAt(s[1..], needle, i);
        assert s[i + 1..i + 1 + |needle|] == s[1..][i..i + |needle|];
        assert OccursAt(s, needle, i + 1);
      }
      if exists i :: OccursAt(s, needle, i) {
        var i :| OccursAt(s, needle, i);
        if i > 0 {
          assert s[1..][i - 1..i - 1 + |needle|] == s[i..i + |needle|];
          assert OccursAt(s[1..], needle, i - 1);
        }
      }
    } else if exists i :: OccursAt(s, needle, i) {
      var i :| OccursAt(s, needle, i);
      assert needle == [];
    }
  }

  /**
   * The Go idiom `if acc != "" { acc += sep }; acc += item`: the separator is
   * written only once something has been accumulated.
   */
  function Accumulate(acc: string, item: string, sep: string): string {
    if acc != "" then acc + sep + item else item
  }

  function AccumulateAll(acc: string, items: seq<string>, sep: string): string
    decreases |items|
  {
    if items == [] then acc else AccumulateAll(Accumulate(acc, items[0], sep), items[1..], sep)
  }

  function DropLeadingEmpty(items: seq<string>): (r: seq<string>)
    ensures r == [] || r[0] != ""
    ensures |r| <= |items| && r == items[|items| - |r|..]
  {
    if items != [] && items[0] == "" then DropLeadingEmpty(items[1..]) else items
  }

  /**
   * Accumulating from the empty string joins the items with `sep`, except
   * that leading empty items leave no separator behind.
   */
  lemma {:induction false} AccumulateAllIsJoin(items: seq<string>, sep: string)
    ensures AccumulateAll("", items, sep) == Join(DropLeadingEmpty(items), sep)
    decreases |items|
  {
    if items != [] {
      if items[0] == "" {
        AccumulateAllIsJoin(items[1..], sep);
      } else {
        AccumulateFromNonEmpty(items[0], items[1..], sep);
        assert [items[0]] + items[1..] == items;
      }
    }
  }

  lemma {:induction false} AccumulateFromNonEmpty(acc: string, items: seq<string>, sep: string)
    requires acc != ""
    ensures AccumulateAll(acc, items, sep) == Join([acc] + items, sep)
    decreases |items|
  {
    if items != [] {
      var acc' := acc + sep + items[0];
      AccumulateFromNonEmpty(acc', items[1..], sep);
      if |items| == 1 {
        assert [acc] + items == [acc, items[0]];
      } else {
        assert ([acc] + items)[1..] == items;
        assert ([acc'] + items[1..])[1..] == items[1..];
        assert (items)[1..] == items[1..];
      }
    }
  }
}

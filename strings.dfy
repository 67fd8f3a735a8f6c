/**
 * The two java.lang.String operations the ore filter and the deny list
 * rely on: substring search (String.contains) and String.split with a
 * one-character separator that is not a regular-expression metacharacter
 * and the default limit 0.
 */
module Strings {

  /** String.contains: `sub` occurs in `s` (the empty string occurs everywhere). */
  function Contains(s: string, sub: string): (r: bool)
    ensures sub == [] ==> r
    ensures r ==> |sub| <= |s|
    decreases |s|
  {
    sub <= s || (|s| > 0 && Contains(s[1..], sub))
  }

  /** `sub` occurs in `s` starting at index i. */
  ghost predicate OccursAt(s: string, sub: string, i: int)
  {
    0 <= i && i + |sub| <= |s| && s[i..i + |sub|] == sub
  }

  /** Contains is substring search: it holds exactly when some occurrence exists. */
  lemma {:induction false} ContainsIff(s: string, sub: string)
    ensures Contains(s, sub) <==> exists i :: OccursAt(s, sub, i)
    decreases |s|
  {
    if sub <= s {
      assert OccursAt(s, sub, 0);
    } else if |s| == 0 {
    } else {
      ContainsIff(s[1..], sub);
      if i :| OccursAt(s[1..], sub, i) {
        assert s[i + 1..i + 1 + |sub|] == s[1..][i..i + |sub|];
        assert OccursAt(s, sub, i + 1);
      }
      if i :| OccursAt(s, sub, i) {
        assert s[1..][i - 1..i - 1 + |sub|] == s[i..i + |sub|];
        assert OccursAt(s[1..], sub, i - 1);
      }
    }
  }

  /**
   * All the pieces of `s` between separators, empty pieces included: one
   * more piece than there are separators.
   */
  function Fields(s: string, sep: char): (r: seq<string>)
    ensures |r| >= 1
    ensures forall i :: 0 <= i < |r| ==> sep !in r[i]
  {
    if s == [] then [[]]
    else
      var rest := Fields(s[1..], sep);
      if s[0] == sep then [[]] + rest else [[s[0]] + rest[0]] + rest[1..]
  }

  /** The pieces put back together with the separator between them. */
  function Join(fs: seq<string>, sep: char): string
    requires |fs| >= 1
  {
    if |fs| == 1 then fs[0] else fs[0] + [sep] + Join(fs[1..], sep)
  }

  /** Joining the fields of s gives s back. */
  lemma {:induction false} JoinFields(s: string, sep: char)
    ensures Join(Fields(s, sep), sep) == s
  {
    if s != [] {
      JoinFields(s[1..], sep);
      var rest := Fields(s[1..], sep);
      if s[0] == sep {
        assert ([[]] + rest)[1..] == rest;
      } else {
        var fs := [[s[0]] + rest[0]] + rest[1..];
        if |rest| > 1 {
          assert fs[1..] == rest[1..];
          assert Join(rest, sep) == rest[0] + [sep] + Join(rest[1..], sep);
        }
        assert s == [s[0]] + s[1..];
      }
    }
  }

  /** A string without the separator is a single field. */
  lemma {:induction false} FieldsNoSep(a: string, sep: char)
    requires sep !in a
    ensures Fields(a, sep) == [a]
  {
    if a != [] {
      assert sep !in a[1..];
      FieldsNoSep(a[1..], sep);
      assert a == [a[0]] + a[1..];
    }
  }

  /** A separator after a separator-free prefix ends the first field. */
  lemma {:induction false} FieldsAfterSep(a: string, b: string, sep: char)
    requires sep !in a
    ensures Fields(a + [sep] + b, sep) == [a] + Fields(b, sep)
  {
    var s := a + [sep] + b;
    if a == [] {
      assert s[1..] == b;
    } else {
      assert s[1..] == a[1..] + [sep] + b;
      assert sep !in a[1..];
      FieldsAfterSep(a[1..], b, sep);
      assert a == [a[0]] + a[1..];
    }
  }

  /** Splitting a join of separator-free pieces gives the pieces back. */
  lemma {:induction false} FieldsJoin(fs: seq<string>, sep: char)
    requires |fs| >= 1
    requires forall i :: 0 <= i < |fs| ==> sep !in fs[i]
    ensures Fields(Join(fs, sep), sep) == fs
  {
    if |fs| == 1 {
      FieldsNoSep(fs[0], sep);
    } else {
      assert sep !in fs[0];
      FieldsJoin(fs[1..], sep);
      FieldsAfterSep(fs[0], Join(fs[1..], sep), sep);
      assert fs == [fs[0]] + fs[1..];
    }
  }

  /** The pieces with every trailing empty piece removed. */
  function DropTrailingEmpty(fs: seq<string>): (r: seq<string>)
    ensures r <= fs
    ensures r == [] || r[|r| - 1] != []
    ensures forall i :: |r| <= i < |fs| ==> fs[i] == []
  {
    if fs == [] || fs[|fs| - 1] != [] then fs else DropTrailingEmpty(fs[..|fs| - 1])
  }

  /**
   * String.split(sep) with limit 0: when the separator does not occur the
   * result is the string itself (even the empty string); otherwise the
   * fields with trailing empty fields dropped.
   */
  function Split(s: string, sep: char): (r: seq<string>)
    ensures sep !in s ==> r == [s]
    ensures forall i :: 0 <= i < |r| ==> sep !in r[i]
    ensures r <= Fields(s, sep)
    ensures sep in s ==> r == [] || r[|r| - 1] != []
    ensures forall i :: |r| <= i < |Fields(s, sep)| ==> Fields(s, sep)[i] == []
  {
    if sep !in s then
      FieldsNoSep(s, sep);
      [s]
    else
      DropTrailingEmpty(Fields(s, sep))
  }

  /** A non-empty string is an element of the split exactly when it is one of the fields. */
  lemma SplitMember(s: string, sep: char, id: string)
    requires id != []
    ensures id in Split(s, sep) <==> id in Fields(s, sep)
  {
    var r, fs := Split(s, sep), Fields(s, sep);
    if id in fs {
      var i :| 0 <= i < |fs| && fs[i] == id;
      assert i < |r|;
      assert r[i] == id;
    }
  }

  /** Trailing empty pieces are dropped: "a,b,,".split(",") is ["a", "b"]. */
  lemma SplitDropsTrailing()
    ensures Split("a,b,,", ',') == ["a", "b"]
  {
    assert ",,"[1..] == "," && "b,,"[1..] == ",," && ",b,,"[1..] == "b,," && "a,b,,"[1..] == ",b,,";
    assert ","[1..] == "";
    assert Fields(",", ',') == ["", ""];
    assert Fields(",,", ',') == ["", "", ""];
    assert ["", "", ""][1..] == ["", ""] && "b" + "" == "b";
    assert Fields("b,,", ',') == ["b", "", ""];
    assert Fields(",b,,", ',') == ["", "b", "", ""];
    assert ["", "b", "", ""][1..] == ["b", "", ""] && ['a'] + "" == "a";
    assert Fields("a,b,,", ',') == ["a", "b", "", ""];
    assert "a,b,,"[1] == ',';
    assert ["a", "b", "", ""][..3] == ["a", "b", ""] && ["a", "b", ""][..2] == ["a", "b"];
  }

  /** A leading empty piece is kept: ",a".split(",") is ["", "a"]. */
  lemma SplitKeepsLeading()
    ensures Split(",a", ',') == ["", "a"]
  {
    assert ",a"[1..] == "a";
    FieldsNoSep("a", ',');
    assert Fields(",a", ',') == ["", "a"];
  }

  /** A lone separator splits into nothing. */
  lemma SplitSeparatorOnly()
    ensures Split(",", ',') == []
  {
    assert ","[1..] == "";
    assert Fields(",", ',') == ["", ""];
  }

  /** The empty string splits into one empty piece. */
  lemma SplitEmpty()
    ensures Split("", ',') == [""]
  {
  }
}

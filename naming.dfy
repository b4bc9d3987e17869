/** NamingJava2Xml: turns a Java class or member name into an XML name.
    Character classes are restricted to ASCII: `isUpperCase` is 'A'..'Z' and
    `toLowerCase` maps 'A'..'Z' to 'a'..'z' and leaves everything else. */
module Naming {
  import opened Wrappers
  import opened Sequences
  import opened Reflection

  predicate IsUpperCase(c: char) {
    'A' <= c <= 'Z'
  }

  predicate IsLowerCase(c: char) {
    'a' <= c <= 'z'
  }

  function ToLowerCase(c: char): (r: char)
    ensures IsUpperCase(c) ==> IsLowerCase(r)
    ensures !IsUpperCase(c) ==> r == c
  {
    if IsUpperCase(c) then (c as int + 32) as char else c
  }

  /** The left-to-right scan of `toXMLName` over the characters after the
      first. `ucPrev` is the loop's flag: the previous character was an
      upper-case letter or a '.'. */
  function Hyphenate(rest: string, ucPrev: bool): string
  {
    if rest == [] then []
    else
      var ch := rest[0];
      if IsUpperCase(ch) then
        if ucPrev then [ch] + Hyphenate(rest[1..], true)
        else ['-', ToLowerCase(ch)] + Hyphenate(rest[1..], true)
      else if ch == '.' then [ch] + Hyphenate(rest[1..], true)
      else [ch] + Hyphenate(rest[1..], false)
  }

  /** The XML name `toXMLName` produces for a non-null name. */
  function XmlName(name: string): string
  {
    if |name| == 0 then name
    else if |name| == 1 then [ToLowerCase(name[0])]
    else if IsUpperCase(name[0]) && IsUpperCase(name[1]) then name
    else [ToLowerCase(name[0])] + Hyphenate(name[1..], false)
  }

  /** `toXMLName`: null stays null; otherwise the buffer is rewritten in place,
      inserting '-' before an upper-case letter that starts a run. */
  method ToXmlName(name: Option<string>) returns (r: Option<string>)
    ensures name.None? ==> r.None?
    ensures name.Some? ==> r == Some(XmlName(name.value))
  {
    if name.None? {
      return None;
    }
    var s := name.value;
    if |s| == 0 {
      assert XmlName(s) == s;
      return Some(s);
    }
    if |s| == 1 {
      assert XmlName(s) == [ToLowerCase(s[0])];
      return Some([ToLowerCase(s[0])]);
    }
    if IsUpperCase(s[0]) && IsUpperCase(s[1]) {
      assert XmlName(s) == s;
      return Some(s);
    }
    var cbuff := s;
    cbuff := cbuff[0 := ToLowerCase(cbuff[0])];
    assert cbuff[1..] == s[1..];
    var ucPrev := false;
    var i := 1;
    while i < |cbuff|
      invariant 1 <= i <= |cbuff|
      invariant cbuff[..i] + Hyphenate(cbuff[i..], ucPrev) == XmlName(s)
      decreases |cbuff| - i
    {
      var ch := cbuff[i];
      ghost var prefix, tail := cbuff[..i], cbuff[i + 1..];
      assert cbuff[i..] == [ch] + tail;
      if IsUpperCase(ch) {
        if ucPrev {
          KeepStep(prefix, ch, tail, ucPrev, true);
          assert cbuff[..i + 1] == prefix + [ch];
          i := i + 1;
          continue;
        }
        ucPrev := true;
        cbuff := cbuff[..i] + ['-'] + cbuff[i..];
        i := i + 1;
        cbuff := cbuff[i := ToLowerCase(ch)];
        InsertStep(prefix, ch, tail);
        assert cbuff == prefix + ['-', ToLowerCase(ch)] + tail;
        assert cbuff[..i + 1] == prefix + ['-', ToLowerCase(ch)];
        assert cbuff[i + 1..] == tail;
      } else if ch == '.' {
        KeepStep(prefix, ch, tail, ucPrev, true);
        ucPrev := true;
        assert cbuff[..i + 1] == prefix + [ch];
      } else {
        KeepStep(prefix, ch, tail, ucPrev, false);
        ucPrev := false;
        assert cbuff[..i + 1] == prefix + [ch];
      }
      i := i + 1;
    }
    assert cbuff[..i] == cbuff && cbuff[i..] == [];
    assert cbuff == XmlName(s);
    r := Some(cbuff);
  }

  /** A step of the scan that copies `ch` unchanged: an upper-case letter
      continuing a run, a '.', or any other character. */
  lemma KeepStep(done: string, ch: char, tail: string, ucPrev: bool, next: bool)
    requires if IsUpperCase(ch) then ucPrev && next else next == (ch == '.')
    ensures done + Hyphenate([ch] + tail, ucPrev) == (done + [ch]) + Hyphenate(tail, next)
  {
    assert ([ch] + tail)[1..] == tail;
  }

  /** A step of the scan that starts a run: '-' and the lower-cased letter. */
  lemma InsertStep(done: string, ch: char, tail: string)
    requires IsUpperCase(ch)
    ensures done + Hyphenate([ch] + tail, false) == (done + ['-', ToLowerCase(ch)]) + Hyphenate(tail, true)
  {
    assert ([ch] + tail)[1..] == tail;
  }

  /** `createXMLName`: the XML name of a class is the XML name of its simple
      name, the part of the qualified name after the last '.'. */
  function CreateXmlName(c: TypeRef): (r: string)
    ensures c.name != [] && c.name[|c.name| - 1] == '.' ==> r == []
  {
    var name := c.name;
    var idx := LastIndexOf(name, '.');
    XmlName(if idx >= 0 then name[idx + 1..] else name)
  }

  // ---------------------------------------------------------------------
  // A position-wise reading of the transform

  /** Position `k` (k >= 1) holds an upper-case letter that starts a new run:
      the character before it, if it is not the first character of the name,
      is neither upper-case nor '.'. */
  predicate RunStart(s: string, k: int)
    requires 1 <= k < |s|
  {
    IsUpperCase(s[k]) && !(k >= 2 && (IsUpperCase(s[k - 1]) || s[k - 1] == '.'))
  }

  /** What position `k` contributes to the output. */
  function Piece(s: string, k: int): string
    requires 1 <= k < |s|
  {
    if RunStart(s, k) then ['-', ToLowerCase(s[k])] else [s[k]]
  }

  /** The contributions of positions k.. concatenated. */
  function Pieces(s: string, k: int): string
    requires 1 <= k <= |s|
    decreases |s| - k
  {
    if k == |s| then [] else Piece(s, k) + Pieces(s, k + 1)
  }

  /** Number of run starts at positions k.. */
  function RunStarts(s: string, k: int): nat
    requires 1 <= k <= |s|
    decreases |s| - k
  {
    if k == |s| then 0 else (if RunStart(s, k) then 1 else 0) + RunStarts(s, k + 1)
  }

  /** Every '-' in `t` is followed by a lower-case letter. */
  predicate SeparatorsBeforeLowerCase(t: string) {
    forall j :: 0 <= j < |t| && t[j] == '-' ==> j + 1 < |t| && IsLowerCase(t[j + 1])
  }

  predicate NoUpperCase(s: string) {
    forall j :: 0 <= j < |s| ==> !IsUpperCase(s[j])
  }

  /** The flag the loop carries when it reaches position `k` of the input. */
  lemma {:induction false} HyphenateIsPieces(s: string, k: int)
    requires 1 <= k <= |s|
    ensures Hyphenate(s[k..], k >= 2 && (IsUpperCase(s[k - 1]) || s[k - 1] == '.')) == Pieces(s, k)
    decreases |s| - k
  {
    if k < |s| {
      HyphenateIsPieces(s, k + 1);
      assert s[k..][1..] == s[k + 1..];
    }
  }

  /** Unless the name starts with two capitals, the output is the lowered
      first character followed by each later position's piece: an upper-case
      letter that starts a run becomes '-' and its lower-case form, every
      other character is copied unchanged. */
  lemma XmlNameByPosition(s: string)
    requires |s| >= 2 && !(IsUpperCase(s[0]) && IsUpperCase(s[1]))
    ensures XmlName(s) == [ToLowerCase(s[0])] + Pieces(s, 1)
  {
    HyphenateIsPieces(s, 1);
  }

  /** A name with two leading capitals (an acronym such as "URLValue") is
      returned unchanged. */
  lemma AcronymUnchanged(s: string)
    requires |s| >= 2 && IsUpperCase(s[0]) && IsUpperCase(s[1])
    ensures XmlName(s) == s
  {
  }

  /** Otherwise the first character of the result is the lowered first
      character of the input. */
  lemma FirstCharacterLowered(s: string)
    requires |s| >= 1 && !(|s| >= 2 && IsUpperCase(s[0]) && IsUpperCase(s[1]))
    ensures |XmlName(s)| >= 1 && XmlName(s)[0] == ToLowerCase(s[0])
  {
  }

  lemma {:induction false} PiecesLength(s: string, k: int)
    requires 1 <= k <= |s|
    ensures |Pieces(s, k)| == |s| - k + RunStarts(s, k)
    decreases |s| - k
  {
    if k < |s| {
      PiecesLength(s, k + 1);
    }
  }

  /** The output is longer than the input by exactly the number of inserted
      separators, one per run start. */
  lemma XmlNameLength(s: string)
    requires |s| >= 2 && !(IsUpperCase(s[0]) && IsUpperCase(s[1]))
    ensures |XmlName(s)| == |s| + RunStarts(s, 1)
  {
    XmlNameByPosition(s);
    PiecesLength(s, 1);
  }

  lemma SeparatorsConcat(a: string, b: string)
    requires SeparatorsBeforeLowerCase(a) && SeparatorsBeforeLowerCase(b)
    ensures SeparatorsBeforeLowerCase(a + b)
  {
    forall j | 0 <= j < |a + b| && (a + b)[j] == '-'
      ensures j + 1 < |a + b| && IsLowerCase((a + b)[j + 1])
    {
      if j >= |a| {
        assert (a + b)[j] == b[j - |a|];
        assert (a + b)[j + 1] == b[j - |a| + 1];
      }
    }
  }

  lemma {:induction false} PiecesSeparators(s: string, k: int)
    requires 1 <= k <= |s|
    requires '-' !in s
    ensures SeparatorsBeforeLowerCase(Pieces(s, k))
    decreases |s| - k
  {
    if k < |s| {
      PiecesSeparators(s, k + 1);
      assert s[k] != '-';
      SeparatorsConcat(Piece(s, k), Pieces(s, k + 1));
    }
  }

  /** In a name without '-' of its own, every '-' of the result is an
      inserted separator, and it is followed by a lower-case letter. */
  lemma SeparatorsFollowedByLowerCase(s: string)
    requires '-' !in s
    ensures SeparatorsBeforeLowerCase(XmlName(s))
  {
    if |s| >= 2 && !(IsUpperCase(s[0]) && IsUpperCase(s[1])) {
      XmlNameByPosition(s);
      PiecesSeparators(s, 1);
      assert s[0] != '-';
      SeparatorsConcat([ToLowerCase(s[0])], Pieces(s, 1));
    } else if |s| >= 2 {
      assert XmlName(s) == s;
      forall j | 0 <= j < |s| ensures s[j] != '-' {
        assert s[j] in s;
      }
    } else if |s| == 1 {
      assert s[0] in s;
    }
  }

  lemma {:induction false} HyphenateNoUpperCase(rest: string, ucPrev: bool)
    requires NoUpperCase(rest)
    ensures Hyphenate(rest, ucPrev) == rest
    decreases |rest|
  {
    if rest != [] {
      assert !IsUpperCase(rest[0]);
      HyphenateNoUpperCase(rest[1..], rest[0] == '.');
    }
  }

  /** A name with no upper-case letter is returned unchanged. */
  lemma NoUpperCaseUnchanged(s: string)
    requires NoUpperCase(s)
    ensures XmlName(s) == s
  {
    if |s| >= 2 {
      assert !IsUpperCase(s[0]);
      HyphenateNoUpperCase(s[1..], false);
    } else if |s| == 1 {
      assert !IsUpperCase(s[0]);
      assert [s[0]] == s;
    }
  }

  /** Hence the transform is idempotent on such names. */
  lemma IdempotentWithoutUpperCase(s: string)
    requires NoUpperCase(s)
    ensures XmlName(XmlName(s)) == XmlName(s)
  {
    NoUpperCaseUnchanged(s);
  }

  /** `createXMLName` of an unqualified class name is `toXMLName` of it. */
  lemma CreateXmlNameUnqualified(c: TypeRef)
    requires '.' !in c.name
    ensures CreateXmlName(c) == XmlName(c.name)
  {
  }

  /** `createXMLName` of "p.q", where q holds no '.', is `toXMLName` of q. */
  lemma CreateXmlNameQualified(c: TypeRef, p: string, q: string)
    requires c.name == p + "." + q && '.' !in q
    ensures CreateXmlName(c) == XmlName(q)
  {
    var name := c.name;
    var k := LastIndexOf(name, '.');
    assert name[|p|] == '.';
    assert k == |p|;
    assert name[k + 1..] == q;
  }

  /** The values the source's comments and tests spell out. */
  lemma ShortNames()
    ensures XmlName("") == ""
    ensures XmlName("x") == "x"
    ensures XmlName("A") == "a"
    ensures forall c :: XmlName([c]) == [ToLowerCase(c)]
    ensures XmlName("URLValue") == "URLValue"
  {
  }

  lemma HugoExample()
    ensures XmlName("Hugo") == "hugo"
  {
    assert "Hugo"[1..] == "ugo";
    assert Hyphenate("ugo", false) == "ugo";
  }

  lemma HugoFranzExample()
    ensures XmlName("HugoFranz") == "hugo-franz"
  {
    assert "HugoFranz"[1..] == "ugoFranz";
    assert Hyphenate("Franz", false) == "-franz" by {
      assert "Franz"[1..] == "ranz";
      assert Hyphenate("ranz", true) == "ranz";
    }
    assert Hyphenate("ugoFranz", false) == "ugo-franz" by {
      assert "ugoFranz"[1..] == "goFranz";
      assert "goFranz"[1..] == "oFranz";
      assert "oFranz"[1..] == "Franz";
    }
  }

  /** A run of capitals keeps its later letters, and '.' suppresses the next
      separator. */
  lemma RunExamples()
    ensures XmlName("aBC") == "a-bC"
    ensures XmlName("a.Bc") == "a.Bc"
  {
    assert "aBC"[1..] == "BC";
    assert "BC"[1..] == "C";
    assert "a.Bc"[1..] == ".Bc";
    assert ".Bc"[1..] == "Bc";
    assert "Bc"[1..] == "c";
  }
}

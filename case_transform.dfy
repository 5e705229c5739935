/**
 * The case transform applied to a typography block's text before it is laid
 * out (src/components/Cover.tsx, inside `useTextTexture`): unchanged,
 * upper case, lower case, or every word capitalised with the regular
 * expression `\b\w`.
 *
 * Characters are mapped on ASCII. `\w` is the ASCII word class
 * [A-Za-z0-9_], so a capitalised character is always ASCII; only the
 * whole-text upper and lower transforms would touch other letters too, and
 * those are left as they are here.
 */
module CaseTransform {
  import opened Types

  predicate IsLower(c: char) { 'a' <= c <= 'z' }

  predicate IsUpper(c: char) { 'A' <= c <= 'Z' }

  /** The regular-expression word class `\w`. */
  predicate IsWordChar(c: char)
  {
    IsLower(c) || IsUpper(c) || '0' <= c <= '9' || c == '_'
  }

  /** An ASCII lower-case letter becomes its capital; every other character is kept. */
  function UpperChar(c: char): (u: char)
    ensures IsLower(c) ==> IsUpper(u) && u as int == c as int - 32
    ensures !IsLower(u)
    ensures !IsLower(c) ==> u == c
    ensures IsWordChar(u) <==> IsWordChar(c)
  {
    if IsLower(c) then (c as int - 32) as char else c
  }

  /** An ASCII upper-case letter becomes its small letter; every other character is kept. */
  function LowerChar(c: char): (l: char)
    ensures IsUpper(c) ==> IsLower(l) && l as int == c as int + 32
    ensures !IsUpper(l)
    ensures !IsUpper(c) ==> l == c
    ensures IsWordChar(l) <==> IsWordChar(c)
  {
    if IsUpper(c) then (c as int + 32) as char else c
  }

  /** Lowering a capital gives back the letter it was raised from, and the reverse. */
  lemma CaseInverse(c: char)
    ensures IsLower(c) ==> LowerChar(UpperChar(c)) == c
    ensures IsUpper(c) ==> UpperChar(LowerChar(c)) == c
  {
  }

  /** `text.toUpperCase()`: every lower-case letter raised, everything else kept. */
  function ToUpper(s: string): (r: string)
    ensures |r| == |s|
    ensures forall i :: 0 <= i < |s| ==> r[i] == UpperChar(s[i])
  {
    if s == [] then [] else [UpperChar(s[0])] + ToUpper(s[1..])
  }

  /** `text.toLowerCase()`: every upper-case letter lowered, everything else kept. */
  function ToLower(s: string): (r: string)
    ensures |r| == |s|
    ensures forall i :: 0 <= i < |s| ==> r[i] == LowerChar(s[i])
  {
    if s == [] then [] else [LowerChar(s[0])] + ToLower(s[1..])
  }

  /**
   * A match of `\b\w` at position `i`: a word character at the start of the
   * text or right after a non-word character.
   */
  predicate WordStart(s: string, i: nat)
    requires i < |s|
  {
    IsWordChar(s[i]) && (i == 0 || !IsWordChar(s[i - 1]))
  }

  /**
   * The global replace, scanning left to right; `afterWord` says whether the
   * character just before `s` was a word character.
   */
  function CapitalizeFrom(s: string, afterWord: bool): (r: string)
    ensures |r| == |s|
  {
    if s == [] then []
    else
      var c := if IsWordChar(s[0]) && !afterWord then UpperChar(s[0]) else s[0];
      [c] + CapitalizeFrom(s[1..], IsWordChar(s[0]))
  }

  /**
   * `text.replace(/\b\w/g, c => c.toUpperCase())`: exactly the characters
   * that start a word are upper-cased, every other character is kept.
   */
  function CapitalizeWords(s: string): (r: string)
    ensures |r| == |s|
    ensures forall i :: 0 <= i < |s| ==> r[i] == if WordStart(s, i) then UpperChar(s[i]) else s[i]
  {
    CapitalizeScan(s);
    CapitalizeFrom(s, false)
  }

  /** The switch on the case setting; `none` leaves the text as it is. */
  function ApplyCase(s: string, textCase: TextCase): (r: string)
    ensures |r| == |s|
  {
    match textCase
    case NoCase => s
    case Uppercase => ToUpper(s)
    case Lowercase => ToLower(s)
    case Capitalize => CapitalizeWords(s)
  }

  lemma {:induction false} CapitalizeFromAt(s: string, afterWord: bool, i: nat)
    requires i < |s|
    ensures CapitalizeFrom(s, afterWord)[i]
         == if IsWordChar(s[i]) && (if i == 0 then !afterWord else !IsWordChar(s[i - 1]))
            then UpperChar(s[i]) else s[i]
  {
    if i > 0 {
      CapitalizeFromAt(s[1..], IsWordChar(s[0]), i - 1);
    }
  }

  /** The scan from the start of the text upper-cases exactly the `\b\w` matches. */
  lemma CapitalizeScan(s: string)
    ensures forall i :: 0 <= i < |s| ==>
      CapitalizeFrom(s, false)[i] == if WordStart(s, i) then UpperChar(s[i]) else s[i]
  {
    forall i | 0 <= i < |s|
      ensures CapitalizeFrom(s, false)[i] == if WordStart(s, i) then UpperChar(s[i]) else s[i]
    {
      CapitalizeFromAt(s, false, i);
    }
  }

  /** Every transform keeps the length and the line breaks where they are. */
  lemma KeepsLineBreaks(s: string, textCase: TextCase, i: nat)
    requires i < |s|
    ensures ApplyCase(s, textCase)[i] == '\n' <==> s[i] == '\n'
  {
  }

  /** `none` returns the text unchanged. */
  lemma NoCaseIsIdentity(s: string)
    ensures ApplyCase(s, NoCase) == s
  {
  }

  /** Upper-casing twice is upper-casing once. */
  lemma UppercaseIdempotent(s: string)
    ensures ApplyCase(ApplyCase(s, Uppercase), Uppercase) == ApplyCase(s, Uppercase)
  {
    var u := ToUpper(s);
    assert ToUpper(u) == u by {
      forall i | 0 <= i < |u| ensures ToUpper(u)[i] == u[i] { }
    }
  }

  /** Lower-casing twice is lower-casing once. */
  lemma LowercaseIdempotent(s: string)
    ensures ApplyCase(ApplyCase(s, Lowercase), Lowercase) == ApplyCase(s, Lowercase)
  {
    var l := ToLower(s);
    assert ToLower(l) == l by {
      forall i | 0 <= i < |l| ensures ToLower(l)[i] == l[i] { }
    }
  }

  /** Capitalising twice is capitalising once: word boundaries do not move. */
  lemma CapitalizeIdempotent(s: string)
    ensures ApplyCase(ApplyCase(s, Capitalize), Capitalize) == ApplyCase(s, Capitalize)
  {
    var c := CapitalizeWords(s);
    forall i | 0 <= i < |c| ensures CapitalizeWords(c)[i] == c[i]
    {
      assert c[i] == if WordStart(s, i) then UpperChar(s[i]) else s[i];
      assert CapitalizeWords(c)[i] == if WordStart(c, i) then UpperChar(c[i]) else c[i];
      if i > 0 {
        assert c[i - 1] == if WordStart(s, i - 1) then UpperChar(s[i - 1]) else s[i - 1];
      }
    }
  }

  /**
   * Upper-casing after any other transform gives the same text as
   * upper-casing alone: the transforms differ only in letter case.
   */
  lemma UppercaseAbsorbs(s: string, textCase: TextCase)
    ensures ToUpper(ApplyCase(s, textCase)) == ToUpper(s)
  {
    var t := ApplyCase(s, textCase);
    forall i | 0 <= i < |s| ensures ToUpper(t)[i] == ToUpper(s)[i]
    {
      if textCase == Capitalize {
        assert t[i] == if WordStart(s, i) then UpperChar(s[i]) else s[i];
      }
    }
  }

  /** The scan over a concatenation resumes where the first part left off. */
  lemma {:induction false} CapitalizeConcat(a: string, b: string, afterWord: bool)
    ensures CapitalizeFrom(a + b, afterWord)
         == CapitalizeFrom(a, afterWord) + CapitalizeFrom(b, if a == [] then afterWord else IsWordChar(a[|a| - 1]))
  {
    if a != [] {
      var c := if IsWordChar(a[0]) && !afterWord then UpperChar(a[0]) else a[0];
      var flag := if a == [] then afterWord else IsWordChar(a[|a| - 1]);
      assert (a + b)[0] == a[0];
      assert (a + b)[1..] == a[1..] + b;
      assert CapitalizeFrom(a + b, afterWord) == [c] + CapitalizeFrom(a[1..] + b, IsWordChar(a[0]));
      assert CapitalizeFrom(a, afterWord) == [c] + CapitalizeFrom(a[1..], IsWordChar(a[0]));
      CapitalizeConcat(a[1..], b, IsWordChar(a[0]));
      assert (if a[1..] == [] then IsWordChar(a[0]) else IsWordChar(a[1..][|a[1..]| - 1])) == flag;
      assert [c] + (CapitalizeFrom(a[1..], IsWordChar(a[0])) + CapitalizeFrom(b, flag))
          == ([c] + CapitalizeFrom(a[1..], IsWordChar(a[0]))) + CapitalizeFrom(b, flag);
    } else {
      assert a + b == b;
    }
  }

  /** Inside a word nothing changes. */
  lemma {:induction false} CapitalizeInsideWord(s: string)
    requires forall i :: 0 <= i < |s| ==> IsWordChar(s[i])
    ensures CapitalizeFrom(s, true) == s
  {
    if s != [] {
      CapitalizeInsideWord(s[1..]);
    }
  }

  /** A word after a space (or at the start) gains a capital and keeps the rest. */
  lemma CapitalizeWord(sep: string, word: string, afterWord: bool)
    requires |sep| <= 1 && (forall i :: 0 <= i < |sep| ==> !IsWordChar(sep[i]))
    requires sep == [] ==> !afterWord
    requires word != [] && forall i :: 0 <= i < |word| ==> IsWordChar(word[i])
    ensures CapitalizeFrom(sep + word, afterWord) == sep + [UpperChar(word[0])] + word[1..]
  {
    var u := UpperChar(word[0]);
    assert CapitalizeFrom(word, false) == [u] + word[1..] by {
      assert CapitalizeFrom(word, false) == [u] + CapitalizeFrom(word[1..], IsWordChar(word[0]));
      CapitalizeInsideWord(word[1..]);
    }
    if sep == [] {
      assert sep + word == word;
    } else {
      var both := sep + word;
      assert both[0] == sep[0] && !IsWordChar(sep[0]);
      assert both[1..] == word;
      assert CapitalizeFrom(both, afterWord) == [sep[0]] + CapitalizeFrom(word, false);
      assert sep == [sep[0]];
    }
  }
}

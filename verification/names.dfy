/** The identifier normalisers of the generator: `toPascalCase`,
    `toCamelCase` and `toEnumKey`, restricted to ASCII case mapping. */
module Names {
  import opened JsText
  import opened Seqs

  /** The class `[-_\s]` of the separator regular expression. */
  predicate IsSeparator(c: char) {
    c == '-' || c == '_' || IsJsSpace(c)
  }

  predicate NoSeparators(s: string) {
    forall i :: 0 <= i < |s| ==> !IsSeparator(s[i])
  }

  /** `s` without its leading run of separators. */
  function DropSeparators(s: string): (r: string)
    ensures |r| <= |s| && r == s[|s| - |r|..]
    ensures r == [] || !IsSeparator(r[0])
    ensures forall i :: 0 <= i < |s| - |r| ==> IsSeparator(s[i])
  {
    if s != [] && IsSeparator(s[0]) then
      var r := DropSeparators(s[1..]);
      assert forall i :: 1 <= i < |s| - |r| ==> s[i] == s[1..][i - 1];
      r
    else s
  }

  /** `s.replace(/[-_\s]+(.)?/g, (_, c) => c ? c.toUpperCase() : '')`: every
      maximal run of separators is removed and the character after it, if
      any, upper-cased. The `.` always matches that character: the line
      terminators it would refuse are all separators themselves. */
  function CollapseSeparators(s: string): (r: string)
    ensures NoSeparators(r)
    decreases |s|
  {
    if s == [] then []
    else if IsSeparator(s[0]) then
      var rest := DropSeparators(s);
      if rest == [] then [] else [UpperChar(rest[0])] + CollapseSeparators(rest[1..])
    else [s[0]] + CollapseSeparators(s[1..])
  }

  /** `toPascalCase`: separator runs collapsed, then the first character
      upper-cased. */
  function ToPascalCase(s: string): (r: string)
    ensures s == [] ==> r == []
    ensures NoSeparators(r)
    ensures r != [] ==> !IsAsciiLower(r[0])
  {
    if s == [] then []
    else
      var t := CollapseSeparators(s);
      if t == [] then [] else [UpperChar(t[0])] + t[1..]
  }

  /** `toCamelCase`: `toPascalCase` with its first character lower-cased. */
  function ToCamelCase(s: string): (r: string)
    ensures s == [] ==> r == []
    ensures NoSeparators(r)
    ensures r != [] ==> !IsAsciiUpper(r[0])
  {
    if s == [] then []
    else
      var p := ToPascalCase(s);
      if p == [] then [] else [LowerChar(p[0])] + p[1..]
  }

  // ----- an independent reference for toPascalCase ---------------------------

  /** The longest separator-free prefix of `s`. */
  function TakeWord(s: string): (w: string)
    ensures |w| <= |s| && w == s[..|w|]
    ensures NoSeparators(w)
    ensures |w| < |s| ==> IsSeparator(s[|w|])
    ensures s != [] && !IsSeparator(s[0]) ==> w != []
  {
    if s != [] && !IsSeparator(s[0]) then [s[0]] + TakeWord(s[1..]) else []
  }

  /** The words of `s`: its maximal separator-free pieces, in order. */
  function Words(s: string): (ws: seq<string>)
    ensures forall i :: 0 <= i < |ws| ==> ws[i] != [] && NoSeparators(ws[i])
    decreases |s|
  {
    if s == [] then []
    else if IsSeparator(s[0]) then Words(s[1..])
    else
      var w := TakeWord(s);
      [w] + Words(s[|w|..])
  }

  function Capitalize(w: string): string {
    if w == [] then [] else [UpperChar(w[0])] + w[1..]
  }

  /** The words, each with its first letter upper-cased, run together. */
  function CapitalizeAll(ws: seq<string>): string {
    if ws == [] then [] else Capitalize(ws[0]) + CapitalizeAll(ws[1..])
  }

  lemma {:induction false} WordsSkipSeparators(s: string)
    ensures Words(s) == Words(DropSeparators(s))
    decreases |s|
  {
    if s != [] && IsSeparator(s[0]) {
      WordsSkipSeparators(s[1..]);
    }
  }

  /** Collapsing copies a leading word unchanged. */
  lemma {:induction false} CollapseCopiesLeadingWord(s: string)
    ensures CollapseSeparators(s) == TakeWord(s) + CollapseSeparators(s[|TakeWord(s)|..])
    decreases |s|
  {
    if s != [] && !IsSeparator(s[0]) {
      var tail := s[1..];
      var w := TakeWord(tail);
      assert TakeWord(s) == [s[0]] + w;
      assert CollapseSeparators(s) == [s[0]] + CollapseSeparators(tail);
      if tail != [] && !IsSeparator(tail[0]) {
        CollapseCopiesLeadingWord(tail);
        assert tail[|w|..] == s[|TakeWord(s)|..];
        SeqAssoc([s[0]], w, CollapseSeparators(tail[|w|..]));
      } else {
        assert w == [];
        assert s[|TakeWord(s)|..] == tail;
      }
    }
  }

  /** The word after a separator run loses nothing but gains a capital. */
  lemma CollapseAfterSeparators(s: string, rest: string, w: string)
    requires s != [] && IsSeparator(s[0])
    requires rest == DropSeparators(s) && rest != []
    requires w == TakeWord(rest)
    ensures CollapseSeparators(s) == Capitalize(w) + CollapseSeparators(rest[|w|..])
  {
    var tail := rest[1..];
    assert CollapseSeparators(s) == [UpperChar(rest[0])] + CollapseSeparators(tail);
    assert w == [rest[0]] + TakeWord(tail);
    CollapseCopiesLeadingWord(tail);
    assert tail[|TakeWord(tail)|..] == rest[|w|..];
    assert w[1..] == TakeWord(tail);
    SeqAssoc([UpperChar(rest[0])], TakeWord(tail), CollapseSeparators(rest[|w|..]));
  }

  /** From a word boundary, collapsing capitalises every following word. */
  lemma {:induction false} CollapseCapitalizesWords(s: string)
    requires s == [] || IsSeparator(s[0])
    ensures CollapseSeparators(s) == CapitalizeAll(Words(s))
    decreases |s|
  {
    if s != [] {
      var rest := DropSeparators(s);
      WordsSkipSeparators(s);
      if rest != [] {
        var w := TakeWord(rest);
        CollapseAfterSeparators(s, rest, w);
        CollapseCapitalizesWords(rest[|w|..]);
        assert Words(rest) == [w] + Words(rest[|w|..]);
      }
    }
  }

  lemma CapitalizeAllStartsUpper(ws: seq<string>)
    requires forall i :: 0 <= i < |ws| ==> ws[i] != []
    requires CapitalizeAll(ws) != []
    ensures !IsAsciiLower(CapitalizeAll(ws)[0])
  {
  }

  lemma PascalFromSeparator(s: string)
    requires s != [] && IsSeparator(s[0])
    ensures ToPascalCase(s) == CapitalizeAll(Words(s))
  {
    var t := CollapseSeparators(s);
    CollapseCapitalizesWords(s);
    if t != [] {
      CapitalizeAllStartsUpper(Words(s));
      assert [UpperChar(t[0])] + t[1..] == t;
    }
  }

  lemma PascalFromWord(s: string)
    requires s != [] && !IsSeparator(s[0])
    ensures ToPascalCase(s) == CapitalizeAll(Words(s))
  {
    var w := TakeWord(s);
    var after := CollapseSeparators(s[|w|..]);
    CollapseCopiesLeadingWord(s);
    CollapseCapitalizesWords(s[|w|..]);
    assert Words(s) == [w] + Words(s[|w|..]);
    assert CapitalizeAll(Words(s)) == Capitalize(w) + after;
    AppendTail(w, after);
    SeqAssoc([UpperChar(w[0])], w[1..], after);
  }

  /** `toPascalCase` of any string is its words, each capitalised, run
      together. */
  lemma PascalIsCapitalizedWords(s: string)
    ensures ToPascalCase(s) == CapitalizeAll(Words(s))
  {
    if s != [] {
      if IsSeparator(s[0]) {
        PascalFromSeparator(s);
      } else {
        PascalFromWord(s);
      }
    }
  }

  /** Collapsing leaves a separator-free string unchanged. */
  lemma {:induction false} CollapseSeparatorFree(s: string)
    requires NoSeparators(s)
    ensures CollapseSeparators(s) == s
  {
    if s != [] {
      CollapseSeparatorFree(s[1..]);
    }
  }

  /** A separator-free name only has its first character capitalised. */
  lemma PascalOfWord(w: string)
    requires w != [] && NoSeparators(w)
    ensures ToPascalCase(w) == [UpperChar(w[0])] + w[1..]
  {
    CollapseSeparatorFree(w);
  }

  /** `toPascalCase` is idempotent. */
  lemma PascalIdempotent(s: string)
    ensures ToPascalCase(ToPascalCase(s)) == ToPascalCase(s)
  {
    var p := ToPascalCase(s);
    if p != [] {
      CollapseSeparatorFree(p);
    }
  }

  /** Re-capitalising a camel-case name gives back the Pascal-case name. */
  lemma PascalOfCamel(s: string)
    ensures ToPascalCase(ToCamelCase(s)) == ToPascalCase(s)
  {
    var p := ToPascalCase(s);
    var c := ToCamelCase(s);
    if c != [] {
      CollapseSeparatorFree(c);
      assert UpperChar(LowerChar(p[0])) == p[0];
    }
  }

  /** Camel case differs from Pascal case in the first character only. */
  lemma CamelDiffersInFirstCharacterOnly(s: string)
    ensures |ToCamelCase(s)| == |ToPascalCase(s)|
    ensures ToCamelCase(s) != [] ==>
              ToCamelCase(s)[1..] == ToPascalCase(s)[1..] && ToCamelCase(s)[0] == LowerChar(ToPascalCase(s)[0])
  {
  }

  // ----- toEnumKey -------------------------------------------------------------

  /** The character `toEnumKey` puts for `c`. */
  function EnumKeyChar(c: char): char {
    if IsAsciiAlnum(c) then UpperChar(c) else '_'
  }

  /** `value.replace(/[^a-zA-Z0-9]/g, '_')`. */
  function ReplaceNonAlnum(s: string): (r: string)
    ensures |r| == |s|
    ensures forall i :: 0 <= i < |s| ==> r[i] == (if IsAsciiAlnum(s[i]) then s[i] else '_')
  {
    if s == [] then [] else [if IsAsciiAlnum(s[0]) then s[0] else '_'] + ReplaceNonAlnum(s[1..])
  }

  predicate StartsWithDigit(s: string) {
    s != [] && IsAsciiDigit(s[0])
  }

  /** `toEnumKey`: every character outside `[a-zA-Z0-9]` becomes `_`, a
      leading digit gets a `_` in front, and the result is upper-cased. */
  function ToEnumKey(value: string): (r: string)
    ensures |r| == |value| + (if StartsWithDigit(value) then 1 else 0)
    ensures forall i :: 0 <= i < |r| ==> IsAsciiUpper(r[i]) || IsAsciiDigit(r[i]) || r[i] == '_'
    ensures r != [] ==> !IsAsciiDigit(r[0])
    ensures StartsWithDigit(value) ==> r[0] == '_'
    ensures var offset := if StartsWithDigit(value) then 1 else 0;
            forall i :: 0 <= i < |value| ==> r[i + offset] == EnumKeyChar(value[i])
  {
    var replaced := ReplaceNonAlnum(value);
    var prefixed := if StartsWithDigit(replaced) then "_" + replaced else replaced;
    ToUpperAscii(prefixed)
  }
}

/**
 * Relationship-label normalisation used by the genealogy tree.
 *
 * The tree compares labels in two ways: the colour lookup lower-cases the
 * label and then removes the characters `/ á é í ó ú ü ñ`; the layer lookup
 * only removes those characters. Both are modelled here on `seq<char>`.
 */
module Text {

  /** Upper-case letters whose lower-case form is the code point 32 above:
      ASCII A-Z and Latin-1 U+00C0..U+00DE except the multiplication sign. */
  predicate IsUpper(c: char) {
    ('A' <= c <= 'Z') || ('\U{C0}' <= c <= '\U{DE}' && c != '\U{D7}')
  }

  /** One character of `String.prototype.toLowerCase`, on the modelled range. */
  function ToLowerChar(c: char): (r: char)
    ensures !IsUpper(r)
    ensures !IsUpper(c) ==> r == c
  {
    if IsUpper(c) then (c as int + 32) as char else c
  }

  /** `s.toLowerCase()`. */
  function Lower(s: string): (r: string)
    ensures |r| == |s|
    ensures forall i :: 0 <= i < |r| ==> !IsUpper(r[i]) && r[i] == ToLowerChar(s[i])
  {
    seq(|s|, i requires 0 <= i < |s| => ToLowerChar(s[i]))
  }

  /** The characters removed by the pattern `/[\/áéíóúüñ]/g`. */
  predicate IsStripped(c: char) {
    c == '/' || c == 'á' || c == 'é' || c == 'í' || c == 'ó' || c == 'ú' || c == 'ü' || c == 'ñ'
  }

  /** The characters of `s` from position `i` on that survive
      `replace(/[\/áéíóúüñ]/g, '')`, in order. Its properties are stated by
      `StripSpec` rather than as postconditions, so that stripping a string
      literal stays a cheap evaluation. */
  function StripFrom(s: string, i: nat): string
    requires i <= |s|
    decreases |s| - i
  {
    if i == |s| then []
    else
      var rest := StripFrom(s, i + 1);
      if IsStripped(s[i]) then rest else [s[i]] + rest
  }

  /** `s.replace(/[\/áéíóúüñ]/g, '')`. */
  function Strip(s: string): string {
    StripFrom(s, 0)
  }

  /** The key the colour lookup compares: lower-case first, then strip. */
  function Normalize(s: string): string {
    Strip(Lower(s))
  }

  lemma {:induction false} StripFromSpec(s: string, i: nat)
    requires i <= |s|
    ensures |StripFrom(s, i)| <= |s| - i
    ensures forall j :: 0 <= j < |StripFrom(s, i)| ==> !IsStripped(StripFrom(s, i)[j])
    ensures forall c :: c in StripFrom(s, i) ==> c in s[i..]
    ensures forall c :: c in s[i..] && !IsStripped(c) ==> c in StripFrom(s, i)
    decreases |s| - i
  {
    if i < |s| {
      StripFromSpec(s, i + 1);
      assert s[i..] == [s[i]] + s[i + 1..];
    }
  }

  /** Stripping removes exactly the stripped characters: what is left holds
      none of them, comes from the input and keeps every other character. */
  lemma StripSpec(s: string)
    ensures |Strip(s)| <= |s|
    ensures forall i :: 0 <= i < |Strip(s)| ==> !IsStripped(Strip(s)[i])
    ensures forall c :: c in Strip(s) ==> c in s
    ensures forall c :: c in s && !IsStripped(c) ==> c in Strip(s)
  {
    StripFromSpec(s, 0);
    assert s[0..] == s;
  }

  lemma {:induction false} StripFromAppend(s: string, c: char, i: nat)
    requires i <= |s|
    ensures StripFrom(s + [c], i) == StripFrom(s, i) + (if IsStripped(c) then [] else [c])
    decreases |s| - i
  {
    if i < |s| {
      StripFromAppend(s, c, i + 1);
      assert (s + [c])[i] == s[i];
    } else {
      assert StripFrom(s + [c], i + 1) == [];
    }
  }

  /** Stripping goes character by character: the empty string strips to
      itself, and one more character is kept at the end unless it is one of
      the stripped characters. The two together fix the result, with every
      kept character in its order and as often as it occurs. */
  lemma StripAppend(s: string, c: char)
    ensures Strip([]) == []
    ensures Strip(s + [c]) == Strip(s) + (if IsStripped(c) then [] else [c])
  {
    StripFromAppend(s, c, 0);
  }

  /** A normalised key holds neither a stripped character nor an upper-case letter. */
  lemma NormalizeSpec(s: string)
    ensures forall i :: 0 <= i < |Normalize(s)| ==> !IsStripped(Normalize(s)[i]) && !IsUpper(Normalize(s)[i])
  {
    var t := Lower(s);
    StripSpec(t);
    assert forall c :: c in t ==> !IsUpper(c);
  }

  lemma {:induction false} StripFromUnchanged(s: string, i: nat)
    requires i <= |s|
    requires forall j :: i <= j < |s| ==> !IsStripped(s[j])
    ensures StripFrom(s, i) == s[i..]
    decreases |s| - i
  {
    if i < |s| {
      StripFromUnchanged(s, i + 1);
      assert s[i..] == [s[i]] + s[i + 1..];
    }
  }

  /** Stripping a string that holds none of the stripped characters changes nothing. */
  lemma StripUnchanged(s: string)
    requires forall i :: 0 <= i < |s| ==> !IsStripped(s[i])
    ensures Strip(s) == s
  {
    StripFromUnchanged(s, 0);
  }

  /** Lower-casing a string with no upper-case letter changes nothing. */
  lemma LowerUnchanged(s: string)
    requires forall i :: 0 <= i < |s| ==> !IsUpper(s[i])
    ensures Lower(s) == s
  {
  }

  /** Stripping is idempotent. */
  lemma StripIdempotent(s: string)
    ensures Strip(Strip(s)) == Strip(s)
  {
    StripSpec(s);
    StripUnchanged(Strip(s));
  }

  /** Normalisation is idempotent: a normalised key normalises to itself. */
  lemma NormalizeIdempotent(s: string)
    ensures Normalize(Normalize(s)) == Normalize(s)
  {
    var n := Normalize(s);
    NormalizeSpec(s);
    LowerUnchanged(n);
    StripUnchanged(n);
  }

  /** Decimal digits of a count, as a template literal prints it. */
  function NatToString(n: nat): (r: string)
    ensures |r| > 0
    ensures forall i :: 0 <= i < |r| ==> '0' <= r[i] <= '9'
  {
    if n < 10 then [('0' as int + n) as char]
    else NatToString(n / 10) + [('0' as int + n % 10) as char]
  }
}

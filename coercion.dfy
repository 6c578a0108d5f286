/** `convertToBoolean`: the service's own rule for turning a raw decision result into a boolean. */
module Coercion {
  import opened JavaText
  import opened Engine

  /** The texts a String result must equal, after lower-casing and trimming, to count as true. */
  const TrueWords: set<string> := {"true", "yes", "1"}

  /** Null is false, a Boolean is itself, a String is one of the true words, a Number is positive,
      and any other object is true. */
  function ConvertToBoolean(v: Value): bool
  {
    match v
    case Null => false
    case Bool(b) => b
    case Str(s) => Trim(ToLower(s)) in TrueWords
    case Num(x) => x > 0.0
    case Other(_) => true
  }

  /** A String result is read as "trim it, then compare case-insensitively with the true words". */
  lemma ConvertStringTrimmed(s: string)
    ensures ConvertToBoolean(Str(s)) <==> ToLower(Trim(s)) in TrueWords
  {
    LowerTrimCommute(s);
  }

  /** Blank padding of any length on either side never changes how a String result is read. */
  lemma ConvertStringPadded(pre: string, w: string, post: string)
    requires AllBlank(pre) && AllBlank(post) && NoBlankEnds(w)
    ensures ConvertToBoolean(Str(pre + w + post)) <==> ToLower(w) in TrueWords
  {
    ConvertStringTrimmed(pre + w + post);
    TrimPadded(pre, w, post);
  }

  /** A String result without blank ends is true exactly when, lower-cased, it is one of the words. */
  lemma ConvertUnpadded(w: string)
    requires NoBlankEnds(w)
    ensures ConvertToBoolean(Str(w)) <==> ToLower(w) in TrueWords
  {
    ConvertStringPadded([], w, []);
    assert [] + w + [] == w;
  }

  /** The coercion rule for the kinds of value other than String. */
  lemma ConvertNonStringKinds()
    ensures !ConvertToBoolean(Null)
    ensures forall b :: ConvertToBoolean(Bool(b)) == b
    ensures forall x :: ConvertToBoolean(Num(x)) <==> x > 0.0
    ensures forall h :: ConvertToBoolean(Other(h))
  {
  }

  /** String results that read as false: only the three words count, whatever else the text says. */
  lemma ConvertFalseWords(w: string)
    requires w == "0" || w == "no" || w == "y e s"
    ensures !ConvertToBoolean(Str(w))
  {
    assert NoBlankEnds(w);
    assert ToLower(w) !in TrueWords by {
      if w == "0" {
        assert ToLower(w) == "0";
      } else if w == "no" {
        assert ToLower(w) == "no";
      } else {
        assert |ToLower(w)| == 5;
      }
    }
    ConvertUnpadded(w);
  }

  /** String results that read as true, whatever their case. */
  lemma ConvertTrueWords(w: string)
    requires w == "1" || w == "True" || w == "YES"
    ensures ConvertToBoolean(Str(w))
  {
    assert ToLower(w) == "1" || ToLower(w) == "true" || ToLower(w) == "yes";
    ConvertUnpadded(w);
  }

  /** A padded, upper-case word reads as true: blanks and case are both ignored. */
  lemma ConvertPaddedTrueWord(s: string)
    requires s == " YES "
    ensures ConvertToBoolean(Str(s))
  {
    var pre, w, post := s[..1], s[1..4], s[4..];
    assert s == pre + w + post;
    assert w == "YES";
    assert AllBlank(pre) && AllBlank(post);
    ConvertTrueWords(w);
    ConvertUnpadded(w);
    ConvertStringPadded(pre, w, post);
  }
}

/**
 * `VariantAnnotation`: the VEP and cache versions an annotation was produced with, and four
 * sets that only ever grow.  SIFT and PolyPhen scores are Java doubles; here their type is
 * left abstract as `Score`.
 */
module AnnotationModel {
  import opened Wrappers
  import opened Exceptions

  /**
   * The Unicode general category Zs (space separators) as of Unicode 6.3, where U+180E
   * MONGOLIAN VOWEL SEPARATOR is no longer one.
   */
  predicate SpaceSeparator(c: char)
  {
    c == ' ' || c == '\U{A0}' || c == '\U{1680}' || ('\U{2000}' <= c <= '\U{200A}')
    || c == '\U{202F}' || c == '\U{205F}' || c == '\U{3000}'
  }

  /**
   * `Character.isWhitespace` on a Java 9 or later runtime (Unicode 6.3 onwards): a space,
   * line or paragraph separator that is not one of the non-breaking spaces, or one of the
   * ASCII controls U+0009-U+000D and U+001C-U+001F.
   */
  predicate IsWhitespace(c: char): (r: bool)
    ensures r <==> (SpaceSeparator(c) && c != '\U{A0}' && c != '\U{2007}' && c != '\U{202F}')
                   || c == '\U{2028}' || c == '\U{2029}'
                   || ('\t' <= c <= '\r') || ('\U{1C}' <= c <= '\U{1F}')
  {
    c == ' ' || c == '\U{1680}' || ('\U{2000}' <= c <= '\U{200A}' && c != '\U{2007}')
    || c == '\U{2028}' || c == '\U{2029}' || c == '\U{205F}' || c == '\U{3000}'
    || ('\t' <= c <= '\r') || ('\U{1C}' <= c <= '\U{1F}')
  }

  /** Spring's `StringUtils.hasText`: a non-empty string that is not all whitespace. */
  predicate HasText(s: string): (r: bool)
    ensures r <==> s != [] && !(forall i :: 0 <= i < |s| ==> IsWhitespace(s[i]))
  {
    exists i :: 0 <= i < |s| && !IsWhitespace(s[i])
  }

  lemma HasTextExamples()
    ensures !HasText("") && !HasText(" \t\n") && !HasText("\U{2003}\U{3000}")
    ensures HasText("78") && HasText(" 78 ") && HasText("\U{A0}")
  {
    assert !IsWhitespace("78"[0]);
    assert !IsWhitespace(" 78 "[1]);
    assert !IsWhitespace("\U{A0}"[0]);
  }

  const VepVersionRequired := "A non empty vepVersion is required"
  const VepCacheVersionRequired := "A non empty vepCacheVersion is required"

  class VariantAnnotation<Score(==)> {
    var vepVersion: string
    var vepCacheVersion: string
    var sifts: set<Score>
    var polyphens: set<Score>
    var soAccessions: set<int>
    var xrefIds: set<string>

    /** Both versions must carry text; all four sets start empty. */
    constructor (vepVersion: string, vepCacheVersion: string)
      requires HasText(vepVersion) && HasText(vepCacheVersion)
      ensures this.vepVersion == vepVersion && this.vepCacheVersion == vepCacheVersion
      ensures sifts == {} && polyphens == {} && soAccessions == {} && xrefIds == {}
      ensures Valid()
    {
      this.vepVersion := vepVersion;
      this.vepCacheVersion := vepCacheVersion;
      sifts, polyphens, soAccessions, xrefIds := {}, {}, {}, {};
    }

    /**
     * `new VariantAnnotation(vepVersion, vepCacheVersion)` with its argument checks: a null or
     * blank version throws, the VEP version being checked first.
     */
    static method New(vepVersion: Option<string>, vepCacheVersion: Option<string>)
      returns (r: Result<VariantAnnotation<Score>, Error>)
      ensures r.Ok? <==> vepVersion.Some? && HasText(vepVersion.value)
                         && vepCacheVersion.Some? && HasText(vepCacheVersion.value)
      ensures !(vepVersion.Some? && HasText(vepVersion.value)) ==> r == Err(IllegalArgument(VepVersionRequired))
      ensures vepVersion.Some? && HasText(vepVersion.value)
              && !(vepCacheVersion.Some? && HasText(vepCacheVersion.value)) ==>
                r == Err(IllegalArgument(VepCacheVersionRequired))
      ensures r.Ok? ==> fresh(r.value) && r.value.Versions() == (vepVersion.value, vepCacheVersion.value)
                        && r.value.IsEmpty() && r.value.Valid()
    {
      if !(vepVersion.Some? && HasText(vepVersion.value)) {
        return Err(IllegalArgument(VepVersionRequired));
      }
      if !(vepCacheVersion.Some? && HasText(vepCacheVersion.value)) {
        return Err(IllegalArgument(VepCacheVersionRequired));
      }
      var a := new VariantAnnotation(vepVersion.value, vepCacheVersion.value);
      r := Ok(a);
    }

    /** The class invariant the constructor's argument checks establish: both versions carry text. */
    predicate Valid()
      reads this
    {
      HasText(vepVersion) && HasText(vepCacheVersion)
    }

    function Versions(): (string, string)
      reads this
    {
      (vepVersion, vepCacheVersion)
    }

    predicate IsEmpty()
      reads this
    {
      sifts == {} && polyphens == {} && soAccessions == {} && xrefIds == {}
    }

    method AddSift(sift: Score)
      modifies this`sifts
      ensures sifts == old(sifts) + {sift}
      ensures polyphens == old(polyphens) && soAccessions == old(soAccessions) && xrefIds == old(xrefIds)
      ensures Versions() == old(Versions()) && (old(Valid()) ==> Valid())
    {
      sifts := sifts + {sift};
    }

    /** `addSifts` takes any collection, duplicates included. */
    method AddSifts(scores: seq<Score>)
      modifies this`sifts
      ensures sifts == old(sifts) + set s | s in scores
      ensures polyphens == old(polyphens) && soAccessions == old(soAccessions) && xrefIds == old(xrefIds)
      ensures Versions() == old(Versions()) && (old(Valid()) ==> Valid())
    {
      sifts := sifts + set s | s in scores;
    }

    method AddPolyphen(polyphen: Score)
      modifies this`polyphens
      ensures polyphens == old(polyphens) + {polyphen}
      ensures sifts == old(sifts) && soAccessions == old(soAccessions) && xrefIds == old(xrefIds)
      ensures Versions() == old(Versions()) && (old(Valid()) ==> Valid())
    {
      polyphens := polyphens + {polyphen};
    }

    method AddPolyphens(scores: seq<Score>)
      modifies this`polyphens
      ensures polyphens == old(polyphens) + set s | s in scores
      ensures sifts == old(sifts) && soAccessions == old(soAccessions) && xrefIds == old(xrefIds)
      ensures Versions() == old(Versions()) && (old(Valid()) ==> Valid())
    {
      polyphens := polyphens + set s | s in scores;
    }

    method AddXrefIds(ids: set<string>)
      modifies this`xrefIds
      ensures xrefIds == old(xrefIds) + ids
      ensures sifts == old(sifts) && polyphens == old(polyphens) && soAccessions == old(soAccessions)
      ensures Versions() == old(Versions()) && (old(Valid()) ==> Valid())
    {
      xrefIds := xrefIds + ids;
    }

    method AddSoAccessions(accessions: set<int>)
      modifies this`soAccessions
      ensures soAccessions == old(soAccessions) + accessions
      ensures sifts == old(sifts) && polyphens == old(polyphens) && xrefIds == old(xrefIds)
      ensures Versions() == old(Versions()) && (old(Valid()) ==> Valid())
    {
      soAccessions := soAccessions + accessions;
    }

    method GetSifts() returns (r: set<Score>)
      ensures r == sifts
    {
      r := sifts;
    }

    method GetPolyphens() returns (r: set<Score>)
      ensures r == polyphens
    {
      r := polyphens;
    }

    method GetSoAccessions() returns (r: set<int>)
      ensures r == soAccessions
    {
      r := soAccessions;
    }

    method GetXrefIds() returns (r: set<string>)
      ensures r == xrefIds
    {
      r := xrefIds;
    }

    method GetVepVersion() returns (r: string)
      ensures r == vepVersion
      ensures Valid() ==> HasText(r)
    {
      r := vepVersion;
    }

    method GetVepCacheVersion() returns (r: string)
      ensures r == vepCacheVersion
      ensures Valid() ==> HasText(r)
    {
      r := vepCacheVersion;
    }
  }

  /** Adding the same score twice leaves the same set as adding it once; nothing is ever removed. */
  method AddSiftTwice<Score(==)>(a: VariantAnnotation<Score>, sift: Score)
    modifies a
    ensures a.sifts == old(a.sifts) + {sift}
    ensures old(a.sifts) <= a.sifts
    ensures a.Versions() == old(a.Versions())
  {
    a.AddSift(sift);
    a.AddSift(sift);
  }
}

/** The feasibility rules of the two optimisation scripts, and the parameter
    split of the varying-beam criterion. A Python dict that a rule updates in
    place is a ParamDict object whose entries the rule reassigns. */
module Scripts {
  import opened Common
  import opened Geometry

  /** A dict of keyword arguments, shared by reference. */
  class ParamDict {
    var entries: KwargMap

    constructor (entries: KwargMap)
      ensures this.entries == entries
    {
      this.entries := entries;
    }
  }

  /** Width of a matboard sheet. */
  const MatboardWidth: real := 395.0

  /** Width of the sheet the fixed-height girder is cut from. */
  const SheetWidth: real := 406.5

  /** Board used by the deck, the bottom flange and two webs of the given
      height, less the two thicknesses the flanges already count. */
  function Used(top: real, bottom: real, height: real): real
  {
    top + bottom + 2.0 * (height - 2.54)
  }

  // ---------------------------------------------------------------------
  // optimize_cross_section.constraint

  /** The girder rule as a value: the keywords it leaves behind and whether it
      accepts them; a missing top, bottom or height raises before any write. */
  function GirderRule(kw: KwargMap): (r: Result<(KwargMap, bool)>)
    ensures r.Err? <==> !(Name("top") in kw && Name("bottom") in kw && Name("height") in kw)
    ensures r.Err? ==> r.error == KeyError
  {
    if !(Name("top") in kw && Name("bottom") in kw && Name("height") in kw) then Err(KeyError)
    else
      var top, bottom, height := kw[Name("top")], kw[Name("bottom")], kw[Name("height")];
      var kw1 := kw[Name("thickness") := 1.27];
      var used := Used(top, bottom, height);
      if used > SheetWidth || top < bottom then Ok((kw1, false))
      else
        var kw2 := kw1[Name("outreach") := 0.5 * (SheetWidth - used)];
        Ok((kw2, 2.0 * kw2[Name("outreach")] < bottom))
  }

  /** The girder rule writes the thickness 1.27 whatever it decides, and
      accepts exactly the girders that fit the sheet with the deck no
      narrower than the bottom flange and an overhang shorter than the
      bottom flange; an accepted girder uses the whole sheet, with an
      overhang of half the leftover width. The overhang is written as soon
      as the girder fits the sheet with deck >= bottom, so a girder the last
      test rejects carries it too; otherwise the outreach is left as it was.
      No other keyword changes. */
  lemma GirderRuleAccepts(kw: KwargMap)
    requires GirderRule(kw).Ok?
    ensures GirderRule(kw).value.0[Name("thickness")] == 1.27
    ensures forall k :: k != Name("thickness") && k != Name("outreach") ==>
      (k in GirderRule(kw).value.0 <==> k in kw) && (k in kw ==> GirderRule(kw).value.0[k] == kw[k])
    ensures GirderRule(kw).value.1 <==>
      var used := Used(kw[Name("top")], kw[Name("bottom")], kw[Name("height")]);
      used <= SheetWidth && kw[Name("top")] >= kw[Name("bottom")] && SheetWidth - used < kw[Name("bottom")]
    ensures GirderRule(kw).value.1 ==>
      var out := GirderRule(kw).value.0;
      var used := Used(kw[Name("top")], kw[Name("bottom")], kw[Name("height")]);
      Name("outreach") in out && out[Name("outreach")] >= 0.0
      && used + 2.0 * out[Name("outreach")] == SheetWidth
    ensures
      var out := GirderRule(kw).value.0;
      var used := Used(kw[Name("top")], kw[Name("bottom")], kw[Name("height")]);
      used <= SheetWidth && kw[Name("top")] >= kw[Name("bottom")] ==>
        Name("outreach") in out && out[Name("outreach")] == 0.5 * (SheetWidth - used) && out[Name("outreach")] >= 0.0
    ensures
      var out := GirderRule(kw).value.0;
      var used := Used(kw[Name("top")], kw[Name("bottom")], kw[Name("height")]);
      !(used <= SheetWidth && kw[Name("top")] >= kw[Name("bottom")]) ==>
        (Name("outreach") in out <==> Name("outreach") in kw)
        && (Name("outreach") in kw ==> out[Name("outreach")] == kw[Name("outreach")])
  {
  }

  /** constraint: writes into the caller's dict and hands back that same
      dict when it accepts, None when it rejects. */
  method GirderConstraint(kwargs: ParamDict) returns (r: Result<ParamDict?>)
    modifies kwargs
    ensures GirderRule(old(kwargs.entries)).Err? ==>
      r == Err(KeyError) && kwargs.entries == old(kwargs.entries)
    ensures GirderRule(old(kwargs.entries)).Ok? ==>
      kwargs.entries == GirderRule(old(kwargs.entries)).value.0
      && r == Ok(if GirderRule(old(kwargs.entries)).value.1 then kwargs else null)
  {
    if !(Name("top") in kwargs.entries && Name("bottom") in kwargs.entries && Name("height") in kwargs.entries) {
      return Err(KeyError);
    }
    var top, bottom, height := kwargs.entries[Name("top")], kwargs.entries[Name("bottom")], kwargs.entries[Name("height")];
    kwargs.entries := kwargs.entries[Name("thickness") := 1.27];
    var used := top + bottom + 2.0 * (height - 2.54);
    if used > 406.5 || top < bottom {
      return Ok(null);
    }
    kwargs.entries := kwargs.entries[Name("outreach") := 0.5 * (406.5 - used)];
    if 2.0 * kwargs.entries[Name("outreach")] < bottom {
      return Ok(kwargs);
    }
    return Ok(null);
  }

  // ---------------------------------------------------------------------
  // optimize_v_cross_section.constraint

  /** The two-height rule as a value: the keywords it leaves behind and
      whether it accepts them. */
  function VaryingRule(kw: KwargMap): (r: Result<(KwargMap, bool)>)
    ensures r.Err? <==>
      !(Name("top") in kw && Name("bottom") in kw && Name("height1") in kw && Name("height2") in kw)
    ensures r.Err? ==> r.error == KeyError
  {
    if !(Name("top") in kw && Name("bottom") in kw && Name("height1") in kw && Name("height2") in kw) then Err(KeyError)
    else
      var top, bottom := kw[Name("top")], kw[Name("bottom")];
      var height1, height2 := kw[Name("height1")], kw[Name("height2")];
      var kw1 := kw[Name("thickness") := 1.27][Name("outreach") := 5.0];
      var used1 := Used(top, bottom, height1) + 10.0;
      var used2 := Used(top, bottom, height2) + 10.0;
      Ok((kw1, used1 <= MatboardWidth && used2 < MatboardWidth && top > bottom))
  }

  /** The two-height rule writes thickness 1.27 and outreach 5 whatever it
      decides, changes no other keyword, and accepts exactly when both
      sections fit a matboard sheet (the second strictly) and the deck is
      wider than the bottom flange. */
  lemma VaryingRuleAccepts(kw: KwargMap)
    requires VaryingRule(kw).Ok?
    ensures VaryingRule(kw).value.0[Name("thickness")] == 1.27
    ensures VaryingRule(kw).value.0[Name("outreach")] == 5.0
    ensures forall k :: k != Name("thickness") && k != Name("outreach") ==>
      (k in VaryingRule(kw).value.0 <==> k in kw) && (k in kw ==> VaryingRule(kw).value.0[k] == kw[k])
    ensures VaryingRule(kw).value.1 <==>
      Used(kw[Name("top")], kw[Name("bottom")], kw[Name("height1")]) + 10.0 <= MatboardWidth
      && Used(kw[Name("top")], kw[Name("bottom")], kw[Name("height2")]) + 10.0 < MatboardWidth
      && kw[Name("top")] > kw[Name("bottom")]
  {
  }

  /** An accepted two-height design fits the sheet at either height: the
      board used grows with the web height, so the taller section decides. */
  lemma VaryingRuleTallest(kw: KwargMap)
    requires VaryingRule(kw).Ok? && VaryingRule(kw).value.1
    ensures Used(kw[Name("top")], kw[Name("bottom")], Max2(kw[Name("height1")], kw[Name("height2")])) + 10.0 <= MatboardWidth
  {
  }

  /** constraint of the two-height script, on the caller's dict. */
  method VaryingConstraint(kwargs: ParamDict) returns (r: Result<ParamDict?>)
    modifies kwargs
    ensures VaryingRule(old(kwargs.entries)).Err? ==>
      r == Err(KeyError) && kwargs.entries == old(kwargs.entries)
    ensures VaryingRule(old(kwargs.entries)).Ok? ==>
      kwargs.entries == VaryingRule(old(kwargs.entries)).value.0
      && r == Ok(if VaryingRule(old(kwargs.entries)).value.1 then kwargs else null)
  {
    if !(Name("top") in kwargs.entries && Name("bottom") in kwargs.entries
         && Name("height1") in kwargs.entries && Name("height2") in kwargs.entries) {
      return Err(KeyError);
    }
    var top, bottom := kwargs.entries[Name("top")], kwargs.entries[Name("bottom")];
    var height1, height2 := kwargs.entries[Name("height1")], kwargs.entries[Name("height2")];
    kwargs.entries := kwargs.entries[Name("thickness") := 1.27];
    kwargs.entries := kwargs.entries[Name("outreach") := 5.0];
    var used1 := top + bottom + 2.0 * (height1 - 2.54) + 10.0;
    var used2 := top + bottom + 2.0 * (height2 - 2.54) + 10.0;
    if used1 <= MatboardWidth && used2 < MatboardWidth && top > bottom {
      return Ok(kwargs);
    }
    return Ok(null);
  }

  // ---------------------------------------------------------------------
  // VaryingBeamOptimizer.load_criterion: the parameter split

  /** The split as written, on values: the outcome and the caller's keywords
      afterwards. params1 drops height2 (a KeyError when it is missing);
      height1 is then popped from the caller's own keywords (a KeyError when
      missing); params2 is copied from what is left and pops height1 again. */
  function SplitWritten(params: KwargMap): (KwargMap, Result<(KwargMap, KwargMap)>)
  {
    if Name("height2") !in params then (params, Err(KeyError))
    else if Name("height1") !in params then (params, Err(KeyError))
    else
      var left := params - {Name("height1")};
      var params2 := left;
      if Name("height1") !in params2 then (left, Err(KeyError))
      else (left, Ok((params, params2)))
  }

  /** The split as written never gets past the second copy: it always raises
      KeyError, and takes height1 from the caller whenever both heights were
      there. */
  lemma SplitAlwaysRaises(params: KwargMap)
    ensures SplitWritten(params).1 == Err(KeyError)
    ensures SplitWritten(params).0 ==
      if Name("height1") in params && Name("height2") in params then params - {Name("height1")} else params
  {
  }

  /** The split as written, on the caller's dict: the check for a varying
      bridge (isVarying; that bridge class is not part of this model) comes
      first and raises ValueError. */
  method SplitAsWritten(isVarying: bool, params: ParamDict) returns (r: Result<(KwargMap, KwargMap)>)
    modifies params
    ensures !isVarying ==> r == Err(ValueError) && params.entries == old(params.entries)
    ensures isVarying ==> r == SplitWritten(old(params.entries)).1 && params.entries == SplitWritten(old(params.entries)).0
  {
    if !isVarying {
      return Err(ValueError);
    }
    var params1 := params.entries;
    if Name("height2") !in params1 {
      return Err(KeyError);
    }
    params1 := params1 - {Name("height2")};
    if Name("height1") !in params.entries {
      return Err(KeyError);
    }
    params1 := params1[Name("height") := params.entries[Name("height1")]];
    params.entries := params.entries - {Name("height1")};
    var params2 := params.entries;
    if Name("height1") !in params2 {
      return Err(KeyError);
    }
    params2 := params2 - {Name("height1")};
    r := Ok((params1, params2));
  }

  /** The split as intended: params1 is the girder at height1 and params2 the
      girder at height2, both without the two height keywords; the caller's
      keywords stay as they are. */
  function Split(params: KwargMap): (r: Result<(KwargMap, KwargMap)>)
    ensures r.Err? <==> Name("height1") !in params || Name("height2") !in params
    ensures r.Err? ==> r.error == KeyError
  {
    if Name("height1") !in params || Name("height2") !in params then Err(KeyError)
    else
      var rest := params - {Name("height1"), Name("height2")};
      Ok((rest[Name("height") := params[Name("height1")]], rest[Name("height") := params[Name("height2")]]))
  }

  /** The section keywords at position x along the span: the second girder
      strictly between 400 and 800, the first elsewhere. */
  function SectionAt(params: KwargMap, x: real): (r: Result<KwargMap>)
  {
    match Split(params)
    case Err(e) => Err(e)
    case Ok(halves) => Ok(if 400.0 < x < 800.0 then halves.1 else halves.0)
  }

  /** The two girders differ only in their height, which is height1 outside
      (400, 800) and height2 inside; a point of the two-height search that the
      rule accepted builds a girder everywhere along the span. */
  lemma SectionAtHeight(params: KwargMap, x: real)
    requires Name("height1") in params && Name("height2") in params
    ensures SectionAt(params, x).Ok?
    ensures SectionAt(params, x).value[Name("height")] ==
      if 400.0 < x < 800.0 then params[Name("height2")] else params[Name("height1")]
    ensures forall k :: k != Name("height") ==>
      (k in SectionAt(params, x).value <==> k in params && k != Name("height1") && k != Name("height2"))
      && (k in SectionAt(params, x).value ==> SectionAt(params, x).value[k] == params[k])
    ensures params.Keys <= GirderParams() + {Name("height1"), Name("height2")} ==>
      FromKwargs(GirderType, SectionAt(params, x).value).Ok?
  {
    var s := SectionAt(params, x).value;
    if params.Keys <= GirderParams() + {Name("height1"), Name("height2")} {
      assert s.Keys <= GirderParams();
    }
  }
}

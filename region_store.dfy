/** The selected pricing region: a store that only ever accepts one of the six region codes. */
module RegionStore {
  import opened Wrappers
  import opened Api

  /** `DEFAULT_REGION` */
  const DefaultRegion: Region := US

  /** `REGION_OPTIONS` */
  const RegionOptions: seq<Region> := [US, EU, IN, CA, AU, XX]

  /** `isValidRegion`: membership in the list of the six codes, that is, `r` is the code of some region */
  function IsValidRegion(r: string): (ok: bool)
    ensures ok <==> exists region :: Code(region) == r
  {
    var ok := r in ["US", "EU", "IN", "CA", "AU", "XX"];
    assert ok ==> Code(US) == r || Code(EU) == r || Code(IN) == r || Code(CA) == r || Code(AU) == r || Code(XX) == r;
    ok
  }

  /** The type guard `r is Region`: the region a valid code names */
  function ParseRegion(r: string): (result: Option<Region>)
    ensures result.Some? <==> IsValidRegion(r)
    ensures result.Some? ==> Code(result.value) == r
  {
    if r == "US" then Some(US)
    else if r == "EU" then Some(EU)
    else if r == "IN" then Some(IN)
    else if r == "CA" then Some(CA)
    else if r == "AU" then Some(AU)
    else if r == "XX" then Some(XX)
    else None
  }

  /** The code of every region is accepted, and parses back to that region */
  lemma CodeRoundTrip(region: Region)
    ensures IsValidRegion(Code(region))
    ensures ParseRegion(Code(region)) == Some(region)
  {
  }

  /** `REGION_OPTIONS` holds exactly the regions whose codes `isValidRegion` accepts, as does `REGIONS` */
  lemma RegionOptionsExact(r: string)
    ensures IsValidRegion(r) <==> exists region :: region in RegionOptions && Code(region) == r
    ensures RegionOptions == Regions
  {
    if IsValidRegion(r) {
      var region := ParseRegion(r).value;
      assert region in RegionOptions;
    }
  }

  /** The `selectedRegion` store */
  class SelectedRegion {
    var selected: Region

    constructor ()
      ensures selected == DefaultRegion
      ensures Code(selected) == "US"
    {
      selected := DefaultRegion;
    }

    /** `setRegion`: a valid code selects the one region it names, anything else is ignored */
    method SetRegion(region: string)
      modifies this
      ensures IsValidRegion(region) ==> Code(selected) == region
      ensures IsValidRegion(region) ==> forall s :: Code(s) == region <==> s == selected
      ensures !IsValidRegion(region) ==> selected == old(selected)
    {
      var parsed := ParseRegion(region);
      if parsed.None? {
        return;
      }
      selected := parsed.value;
      forall s
        ensures Code(s) == region <==> s == selected
      {
        RegionCodesDistinct(s, selected);
      }
    }
  }
}

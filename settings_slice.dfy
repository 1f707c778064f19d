/**
 * The equalizer part of the settings reducer (settingsSlice.ts): the preset
 * list, the id of the current preset and the three band gains the sliders
 * show. The reducer's calls into the playback engine are not part of this
 * model; the id `Date.now().toString()` is the decimal form of a timestamp
 * taken as a parameter.
 */
module SettingsSlice {
  import opened Spotify

  /** The three band gains, in whole decibels (`customEQ`). */
  datatype Bands = Bands(bass: int, mid: int, treble: int)

  datatype Band = Bass | Mid | Treble

  function BandOf(b: Bands, band: Band): int
  {
    match band
    case Bass => b.bass
    case Mid => b.mid
    case Treble => b.treble
  }

  /** `customEQ[band] = value`: that band takes the value, the other two keep theirs. */
  function WithBand(b: Bands, band: Band, value: int): (r: Bands)
    ensures BandOf(r, band) == value
    ensures forall other: Band | other != band :: BandOf(r, other) == BandOf(b, other)
  {
    match band
    case Bass => b.(bass := value)
    case Mid => b.(mid := value)
    case Treble => b.(treble := value)
  }

  function PresetBands(p: EQPreset): Bands
  {
    Bands(p.bass, p.mid, p.treble)
  }

  /** `{ ...preset, [band]: value }` */
  function PresetWithBand(p: EQPreset, band: Band, value: int): (r: EQPreset)
    ensures r.id == p.id && r.name == p.name && r.isDefault == p.isDefault
    ensures PresetBands(r) == WithBand(PresetBands(p), band, value)
  {
    match band
    case Bass => p.(bass := value)
    case Mid => p.(mid := value)
    case Treble => p.(treble := value)
  }

  function PresetId(p: EQPreset): string { p.id }

  /** `eqPresets.find(p => p.id === id)` */
  function FindPreset(ps: seq<EQPreset>, id: string): (r: Option<EQPreset>)
    ensures r.None? <==> forall p | p in ps :: p.id != id
    ensures r.Some? ==> r.value in ps && r.value.id == id
    ensures r.Some? ==> exists k | 0 <= k < |ps| :: ps[k] == r.value && forall j | 0 <= j < k :: ps[j].id != id
  {
    var k := FindIndex(ps, PresetId, id);
    if k >= 0 then Some(ps[k]) else None
  }

  /** The number of presets carrying `id`. */
  function CountId(ps: seq<EQPreset>, id: string): nat
  {
    if ps == [] then 0
    else CountId(ps[..|ps| - 1], id) + (if ps[|ps| - 1].id == id then 1 else 0)
  }

  /**
   * `eqPresets.filter(p => p.id !== id)`: every preset carrying `id` goes,
   * every other one stays.
   */
  function WithoutId(ps: seq<EQPreset>, id: string): (r: seq<EQPreset>)
    ensures forall p | p in r :: p in ps && p.id != id
    ensures forall p | p in ps && p.id != id :: p in r
    ensures |r| == |ps| - CountId(ps, id)
  {
    if ps == [] then []
    else WithoutId(ps[..|ps| - 1], id) + (if ps[|ps| - 1].id == id then [] else [ps[|ps| - 1]])
  }

  /** `Date.now().toString()`: the decimal digits of the timestamp, most significant first. */
  function DecimalString(n: nat): (s: string)
    ensures |s| >= 1
    ensures forall i | 0 <= i < |s| :: '0' <= s[i] <= '9'
  {
    var digit := ['0' + (n % 10) as char];
    if n < 10 then digit else DecimalString(n / 10) + digit
  }

  /** The number a string of decimal digits denotes. */
  function DecimalValue(s: string): nat
    requires forall i | 0 <= i < |s| :: '0' <= s[i] <= '9'
  {
    if s == [] then 0 else DecimalValue(s[..|s| - 1]) * 10 + (s[|s| - 1] - '0') as nat
  }

  /** The preset table the reducer starts from. */
  const DefaultEQPresets: seq<EQPreset> := [
    EQPreset("default", "Default", 0, 0, 0, true),
    EQPreset("bass-boost", "Bass Boost", 7, 0, -2, false),
    EQPreset("vocal-boost", "Vocal Clarity", -3, 5, 2, false),
    EQPreset("treble-boost", "Treble Boost", -2, 0, 6, false)
  ]

  /**
   * What every reducer case keeps: a 'default' preset exists, every preset
   * carrying that id is protected, and there is at most one 'custom' preset.
   */
  predicate PresetsValid(ps: seq<EQPreset>)
  {
    && (exists p | p in ps :: p.id == "default")
    && (forall p | p in ps && p.id == "default" :: p.isDefault)
    && CountId(ps, "custom") <= 1
  }

  // ---------------------------------------------------------------------
  // Properties
  // ---------------------------------------------------------------------

  /** Reading the id back gives the timestamp: two saves at different times get different ids. */
  lemma {:induction false} DecimalRoundTrip(n: nat)
    ensures DecimalValue(DecimalString(n)) == n
    decreases n
  {
    if n >= 10 {
      var s := DecimalString(n);
      DecimalRoundTrip(n / 10);
      assert s[..|s| - 1] == DecimalString(n / 10);
    }
  }

  lemma DistinctTimesDistinctIds(n: nat, m: nat)
    requires n != m
    ensures DecimalString(n) != DecimalString(m)
  {
    DecimalRoundTrip(n);
    DecimalRoundTrip(m);
  }

  /** A saved preset's id is all digits, so it is never 'default' or 'custom'. */
  lemma SavedIdIsNotReserved(n: nat)
    ensures DecimalString(n) != "default" && DecimalString(n) != "custom"
  {
    var s := DecimalString(n);
    assert '0' <= s[0] <= '9';
  }

  /** The table holds 'default' as its only protected preset, and no 'custom' preset. */
  lemma DefaultTableShape()
    ensures forall p | p in DefaultEQPresets :: p.isDefault <==> p.id == "default"
    ensures FindPreset(DefaultEQPresets, "default") == Some(DefaultEQPresets[0])
    ensures PresetsValid(DefaultEQPresets)
  {
    assert DefaultEQPresets[0] in DefaultEQPresets;
    CountIdPositive(DefaultEQPresets, "custom");
  }

  lemma {:induction false} CountIdAppend(ps: seq<EQPreset>, p: EQPreset, id: string)
    ensures CountId(ps + [p], id) == CountId(ps, id) + (if p.id == id then 1 else 0)
  {
    assert (ps + [p])[..|ps|] == ps;
  }

  /** Filtering out `id` leaves no preset with that id and as many of every other id as before. */
  lemma {:induction false} CountWithoutId(ps: seq<EQPreset>, id: string, other: string)
    ensures CountId(WithoutId(ps, id), other) == if other == id then 0 else CountId(ps, other)
    decreases |ps|
  {
    if ps != [] {
      var init, last := ps[..|ps| - 1], ps[|ps| - 1];
      var r := WithoutId(init, id);
      CountWithoutId(init, id, other);
      assert CountId(ps, other) == CountId(init, other) + (if last.id == other then 1 else 0);
      if last.id != id {
        assert WithoutId(ps, id) == r + [last];
        CountIdAppend(r, last, other);
      } else {
        assert WithoutId(ps, id) == r;
      }
    }
  }

  /** Filtering twice is filtering once. */
  lemma {:induction false} WithoutIdIdempotent(ps: seq<EQPreset>, id: string)
    ensures WithoutId(WithoutId(ps, id), id) == WithoutId(ps, id)
    decreases |ps|
  {
    if ps != [] {
      var init, last := ps[..|ps| - 1], ps[|ps| - 1];
      WithoutIdIdempotent(init, id);
      var r := WithoutId(init, id);
      if last.id != id {
        assert WithoutId(ps, id) == r + [last];
        assert (r + [last])[..|r|] == r;
        assert WithoutId(r + [last], id) == WithoutId(r, id) + [last];
      } else {
        assert WithoutId(ps, id) == r;
      }
    }
  }

  /** Replacing one preset by one with the same id leaves every id's count as it was. */
  lemma {:induction false} CountIdReplace(ps: seq<EQPreset>, k: nat, p: EQPreset, id: string)
    requires k < |ps| && p.id == ps[k].id
    ensures CountId(ps[k := p], id) == CountId(ps, id)
    decreases |ps|
  {
    var qs := ps[k := p];
    if k < |ps| - 1 {
      assert qs[..|qs| - 1] == ps[..|ps| - 1][k := p];
      CountIdReplace(ps[..|ps| - 1], k, p, id);
    } else {
      assert qs[..|qs| - 1] == ps[..|ps| - 1];
    }
  }

  /** A preset carrying `id` exists exactly when `id` has a positive count. */
  lemma {:induction false} CountIdPositive(ps: seq<EQPreset>, id: string)
    ensures CountId(ps, id) > 0 <==> exists p | p in ps :: p.id == id
    decreases |ps|
  {
    if ps != [] {
      var init, last := ps[..|ps| - 1], ps[|ps| - 1];
      CountIdPositive(init, id);
      assert ps == init + [last];
    }
  }

  /** Appending a saved preset, whose id is neither 'default' nor 'custom', keeps the invariant. */
  lemma SaveKeepsValid(ps: seq<EQPreset>, p: EQPreset)
    requires PresetsValid(ps)
    requires p.id != "default" && p.id != "custom"
    ensures PresetsValid(ps + [p])
  {
    CountIdAppend(ps, p, "custom");
    var d :| d in ps && d.id == "default";
    assert d in ps + [p];
  }

  /**
   * Filtering out an id whose first preset is not protected keeps the
   * invariant: that id cannot be 'default'.
   */
  lemma DeleteKeepsValid(ps: seq<EQPreset>, id: string)
    requires PresetsValid(ps)
    requires var found := FindPreset(ps, id); !(found.Some? && found.value.isDefault)
    ensures id != "default"
    ensures PresetsValid(WithoutId(ps, id))
  {
    var d :| d in ps && d.id == "default";
    CountWithoutId(ps, id, "custom");
    assert d in WithoutId(ps, id);
  }

  /** Appending a 'custom' preset where there is none keeps the invariant. */
  lemma AddCustomKeepsValid(ps: seq<EQPreset>, p: EQPreset)
    requires PresetsValid(ps)
    requires FindPreset(ps, "custom").None? && p.id == "custom"
    ensures PresetsValid(ps + [p])
  {
    CountIdPositive(ps, "custom");
    CountIdAppend(ps, p, "custom");
    var d :| d in ps && d.id == "default";
    assert d in ps + [p];
  }

  /** Editing the bands of a 'custom' preset in place keeps the invariant. */
  lemma EditCustomKeepsValid(ps: seq<EQPreset>, k: nat, p: EQPreset)
    requires PresetsValid(ps)
    requires k < |ps| && ps[k].id == "custom" && p.id == "custom"
    ensures PresetsValid(ps[k := p])
  {
    CountIdReplace(ps, k, p, "custom");
    var j :| 0 <= j < |ps| && ps[j].id == "default";
    assert ps[k := p][j] == ps[j];
  }

  // ---------------------------------------------------------------------
  // The reducer
  // ---------------------------------------------------------------------

  class SettingsState {
    var volume: real
    var eqPresets: seq<EQPreset>
    var currentEQPreset: string
    var customEQ: Bands

    ghost predicate Valid()
      reads this
    {
      PresetsValid(eqPresets)
    }

    /** initialState */
    constructor ()
      ensures Valid()
      ensures volume == 0.8 && eqPresets == DefaultEQPresets && currentEQPreset == "default"
      ensures customEQ == Bands(0, 0, 0)
    {
      volume := 0.8;
      eqPresets := DefaultEQPresets;
      currentEQPreset := "default";
      customEQ := Bands(0, 0, 0);
      DefaultTableShape();
    }

    /** setVolume: the level is stored as given; the clamping happens in the playback engine. */
    method SetVolume(level: real)
      modifies this`volume
      ensures volume == level
    {
      volume := level;
    }

    /**
     * saveEQPreset: one preset, with the timestamp's id and the given name
     * and bands, is appended and becomes current; the sliders are left as
     * they are.
     */
    method SaveEQPreset(now: nat, name: string, bands: Bands, isDefault: bool)
      requires Valid()
      modifies this`eqPresets, this`currentEQPreset
      ensures Valid()
      ensures eqPresets == old(eqPresets) + [EQPreset(DecimalString(now), name, bands.bass, bands.mid, bands.treble, isDefault)]
      ensures currentEQPreset == DecimalString(now)
    {
      var id := DecimalString(now);
      var preset := EQPreset(id, name, bands.bass, bands.mid, bands.treble, isDefault);
      SavedIdIsNotReserved(now);
      SaveKeepsValid(eqPresets, preset);
      eqPresets := eqPresets + [preset];
      currentEQPreset := id;
    }

    /**
     * deleteEQPreset: nothing happens when the first preset carrying `id` is
     * protected; otherwise every preset carrying `id` goes, and the current
     * preset falls back to 'default' when it was `id`.
     */
    method DeleteEQPreset(id: string)
      requires Valid()
      modifies this`eqPresets, this`currentEQPreset
      ensures Valid()
      ensures var found := FindPreset(old(eqPresets), id);
        found.Some? && found.value.isDefault ==> eqPresets == old(eqPresets) && currentEQPreset == old(currentEQPreset)
      ensures var found := FindPreset(old(eqPresets), id);
        !(found.Some? && found.value.isDefault) ==>
          && eqPresets == WithoutId(old(eqPresets), id)
          && currentEQPreset == (if old(currentEQPreset) == id then "default" else old(currentEQPreset))
    {
      var preset := FindPreset(eqPresets, id);
      if preset.Some? && preset.value.isDefault {
        return;
      }
      DeleteKeepsValid(eqPresets, id);
      eqPresets := WithoutId(eqPresets, id);
      if currentEQPreset == id {
        currentEQPreset := "default";
      }
    }

    /**
     * applyEQPreset: the requested id becomes current whether or not a
     * preset carries it; the sliders take the bands of the first preset that
     * does, if any.
     */
    method ApplyEQPreset(id: string)
      modifies this`currentEQPreset, this`customEQ
      ensures currentEQPreset == id
      ensures var found := FindPreset(eqPresets, id);
        customEQ == if found.Some? then PresetBands(found.value) else old(customEQ)
    {
      currentEQPreset := id;
      var preset := FindPreset(eqPresets, id);
      if preset.Some? {
        customEQ := PresetBands(preset.value);
      }
    }

    /**
     * updateCustomEQ: the slider's band takes the value. Coming from another
     * preset, a 'custom' preset with the new bands is appended when there is
     * none, and 'custom' becomes current. While 'custom' is current, the
     * first 'custom' preset, if any, gets the same band changed.
     */
    method UpdateCustomEQ(band: Band, value: int)
      requires Valid()
      modifies this`eqPresets, this`currentEQPreset, this`customEQ
      ensures Valid()
      ensures customEQ == WithBand(old(customEQ), band, value)
      ensures currentEQPreset == "custom"
      ensures old(currentEQPreset) != "custom" ==>
                eqPresets == old(eqPresets) + (if FindPreset(old(eqPresets), "custom").None?
                                               then [EQPreset("custom", "Custom", customEQ.bass, customEQ.mid, customEQ.treble, false)]
                                               else [])
      ensures old(currentEQPreset) == "custom" ==>
                var k := FindIndex(old(eqPresets), PresetId, "custom");
                eqPresets == if k >= 0 then old(eqPresets)[k := PresetWithBand(old(eqPresets)[k], band, value)]
                             else old(eqPresets)
      ensures FindPreset(eqPresets, "custom").Some? <==>
                old(currentEQPreset) != "custom" || FindPreset(old(eqPresets), "custom").Some?
      ensures CountId(eqPresets, "custom") <= 1
    {
      customEQ := WithBand(customEQ, band, value);
      if currentEQPreset != "custom" {
        var custom := FindPreset(eqPresets, "custom");
        if custom.None? {
          var preset := EQPreset("custom", "Custom", customEQ.bass, customEQ.mid, customEQ.treble, false);
          AddCustomKeepsValid(eqPresets, preset);
          eqPresets := eqPresets + [preset];
          assert preset in eqPresets;
        }
        currentEQPreset := "custom";
      } else {
        var k := FindIndex(eqPresets, PresetId, "custom");
        if k >= 0 {
          var edited := PresetWithBand(eqPresets[k], band, value);
          EditCustomKeepsValid(eqPresets, k, edited);
          assert eqPresets[k := edited][k] == edited;
          eqPresets := eqPresets[k := edited];
        }
      }
    }
  }
}

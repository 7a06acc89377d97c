/**
 * A MODIS sample: a measure ID with its display name ("H1".."H7" for the
 * heritage measures, "N1".."N7" for the new ones) and the arrays of
 * measure values taken from cloudy and from cloud-free pixels.
 */
module Samples {
  import opened Numerics

  /** The decimal digit of 0 <= d <= 9. */
  function DigitChar(d: int): (c: char)
    requires 0 <= d <= 9
    ensures '0' <= c <= '9'
    ensures c as int - '0' as int == d
  {
    ('0' as int + d) as char
  }

  /** The name of a measure ID; `None` where the source throws IllegalArgumentException. */
  function MeasureName(id: int): (r: Option<string>)
    ensures r.Some? <==> 1 <= id <= 14
    ensures r.Some? ==> |r.value| == 2 && '1' <= r.value[1] <= '7'
    ensures r.Some? ==> (r.value[0] == 'H' <==> id <= 7) && (r.value[0] == 'N' <==> id > 7)
  {
    if 0 < id <= 7 then Some(['H', DigitChar(id)])
    else if 7 < id <= 14 then Some(['N', DigitChar(id - 7)])
    else None
  }

  /** Reading a measure name back: the heritage prefix H keeps the digit, the new prefix N adds 7. */
  function MeasureIdOf(name: string): (r: Option<int>)
    ensures r.Some? ==> 1 <= r.value <= 14
  {
    if |name| != 2 || !('1' <= name[1] <= '7') then None
    else if name[0] == 'H' then Some(name[1] as int - '0' as int)
    else if name[0] == 'N' then Some(name[1] as int - '0' as int + 7)
    else None
  }

  /** Every valid ID is recovered from its name, so distinct IDs have distinct names. */
  lemma NameDeterminesId(id: int)
    requires 1 <= id <= 14
    ensures MeasureName(id).Some?
    ensures MeasureIdOf(MeasureName(id).value) == Some(id)
  {
  }

  /** Every well-formed name is the name of the ID it reads back as. */
  lemma IdDeterminesName(name: string)
    requires MeasureIdOf(name).Some?
    ensures MeasureName(MeasureIdOf(name).value) == Some(name)
  {
    var id := MeasureIdOf(name).value;
    if name[0] == 'H' {
      assert MeasureName(id).value == ['H', DigitChar(id)];
      assert DigitChar(id) == name[1];
    } else {
      assert MeasureName(id).value == ['N', DigitChar(id - 7)];
      assert DigitChar(id - 7) == name[1];
    }
    assert MeasureName(id).value == name;
  }

  class ModisSample {
    const measureID: int
    const measureName: string
    /** Unset (null) until the selection stores the cloudy samples. */
    var cloudSamples: array?<Double>
    /** Unset (null) until the selection stores the cloud-free samples. */
    var noCloudSamples: array?<Double>

    /** The constructor for an ID the source accepts; see NewModisSample for the failing one. */
    constructor (measureID: int)
      requires MeasureName(measureID).Some?
      ensures this.measureID == measureID
      ensures Some(measureName) == MeasureName(measureID)
      ensures cloudSamples == null && noCloudSamples == null
    {
      this.measureID := measureID;
      this.measureName := MeasureName(measureID).value;
      cloudSamples := null;
      noCloudSamples := null;
    }

    method SetCloudSamples(samples: array?<Double>)
      modifies this`cloudSamples
      ensures cloudSamples == samples
    {
      cloudSamples := samples;
    }

    method SetNoCloudSamples(samples: array?<Double>)
      modifies this`noCloudSamples
      ensures noCloudSamples == samples
    {
      noCloudSamples := samples;
    }
  }

  /** `new ModisSample(id)`: a fresh sample for IDs 1..14, `None` where the source throws. */
  method NewModisSample(measureID: int) returns (sample: Option<ModisSample>)
    ensures sample.None? <==> MeasureName(measureID).None?
    ensures sample.Some? ==> fresh(sample.value) && sample.value.measureID == measureID
    ensures sample.Some? ==> Some(sample.value.measureName) == MeasureName(measureID)
    ensures sample.Some? ==> sample.value.cloudSamples == null && sample.value.noCloudSamples == null
  {
    if MeasureName(measureID).None? {
      return None;
    }
    var s := new ModisSample(measureID);
    return Some(s);
  }
}

/**
 * The per-pixel cloud-test measures: seven heritage measures and seven new
 * ones, each a difference, product, constant or undefined (NaN) value over
 * the pixel's reflectances (rho), brightness temperatures (bt), skin
 * temperature and 3x3 uniformity statistics, split by land/ocean and
 * day/night.
 */
module Measures {
  import opened Numerics

  /** All the state a measure object holds. */
  datatype MeasureInputs = MeasureInputs(
    isLand: bool, isNight: bool,
    rho600: Double, rho860: Double, rho1380: Double,
    bt3700: Double, bt7300: Double, bt8600: Double, bt11000: Double, bt12000: Double,
    tSkin: Double, bt11Sample3x3: Double, diffBt11Bt37Sample3x3: Double)

  /** The placeholder combination of two uniformity statistics: their product. */
  function Combine(a: Double, b: Double): (r: Double)
    ensures a.Finite? && b.Finite? ==> r == Finite(a.v * b.v)
    ensures r.NaN? <==> a.NaN? || b.NaN? || (a == Finite(0.0) && b.IsInfinite()) || (a.IsInfinite() && b == Finite(0.0))
  {
    Mul(a, b)
  }

  class ModisMeasures {
    var isLand: bool
    var isNight: bool
    var rho600: Double
    var rho860: Double
    var rho1380: Double
    var bt3700: Double
    var bt7300: Double
    var bt8600: Double
    var bt11000: Double
    var bt12000: Double
    var tSkin: Double
    var bt11Sample3x3: Double
    var diffBt11Bt37Sample3x3: Double

    ghost function Inputs(): MeasureInputs
      reads this
    {
      MeasureInputs(isLand, isNight, rho600, rho860, rho1380, bt3700, bt7300, bt8600,
                    bt11000, bt12000, tSkin, bt11Sample3x3, diffBt11Bt37Sample3x3)
    }

    /** Java's default constructor: false flags and zero values. */
    constructor ()
      ensures Inputs() == MeasureInputs(false, false, Finite(0.0), Finite(0.0), Finite(0.0), Finite(0.0),
                                        Finite(0.0), Finite(0.0), Finite(0.0), Finite(0.0), Finite(0.0),
                                        Finite(0.0), Finite(0.0))
    {
      isLand, isNight := false, false;
      rho600, rho860, rho1380 := Finite(0.0), Finite(0.0), Finite(0.0);
      bt3700, bt7300, bt8600, bt11000, bt12000 := Finite(0.0), Finite(0.0), Finite(0.0), Finite(0.0), Finite(0.0);
      tSkin, bt11Sample3x3, diffBt11Bt37Sample3x3 := Finite(0.0), Finite(0.0), Finite(0.0);
    }

    // -------------------------------------------------------------------
    // Heritage measures

    /** Heritage 1/7: BT11 minus the skin temperature. */
    function HeritageMeasureBT11(): (r: Double)
      reads this
      ensures bt11000.Finite? && tSkin.Finite? ==> r == Finite(bt11000.v - tSkin.v)
      ensures bt11000.NaN? || tSkin.NaN? ==> r.NaN?
    {
      Sub(bt11000, tSkin)
    }

    /** Heritage 2/7: the split window BT11 minus BT12. */
    function HeritageMeasureSplitWindow(): (r: Double)
      reads this
      ensures bt11000.Finite? && bt12000.Finite? ==> r == Finite(bt11000.v - bt12000.v)
      ensures bt11000.NaN? || bt12000.NaN? ==> r.NaN?
    {
      Sub(bt11000, bt12000)
    }

    /** Heritage 3/7: BT3.7 minus BT11, defined at night only. */
    function HeritageMeasureNegativeBT37minusBT11Night(): (r: Double)
      reads this
      ensures !isNight ==> r.NaN?
      ensures isNight && bt3700.Finite? && bt11000.Finite? ==> r == Finite(bt3700.v - bt11000.v)
    {
      if isNight then Sub(bt3700, bt11000) else NaN
    }

    /** Heritage 4/7: the night measure again, read as a broken-cloud criterion. */
    function HeritageMeasurePositiveBT37minusBT11NightMixedScene(): (r: Double)
      reads this
      ensures r == HeritageMeasureNegativeBT37minusBT11Night()
    {
      HeritageMeasureNegativeBT37minusBT11Night()
    }

    /** Heritage 5/7: the 860 nm reflectance, undefined over land. */
    function HeritageMeasureSolarBrightnessThresholdsOcean(): (r: Double)
      reads this
      ensures isLand ==> r.NaN?
      ensures !isLand ==> r == rho860
    {
      if isLand then NaN else rho860
    }

    /** Heritage 6/7: the 600 nm reflectance, defined over land only. */
    function HeritageMeasureSolarBrightnessThresholdsLand(): (r: Double)
      reads this
      ensures isLand ==> r == rho600
      ensures !isLand ==> r.NaN?
    {
      if isLand then rho600 else NaN
    }

    /** Heritage 7/7: the 3x3 BT11 uniformity statistic. */
    function HeritageMeasureUniformity(): (r: Double)
      reads this
      ensures r == bt11Sample3x3
    {
      bt11Sample3x3
    }

    // -------------------------------------------------------------------
    // New measures

    /** New 1/7: the 1380 nm water-vapour reflectance. */
    function NewMeasureR138WaterVapour(): (r: Double)
      reads this
      ensures r == rho1380
    {
      rho1380
    }

    /** New 2/7: BT7.3 minus BT8.6 over land, BT7.3 minus BT11 elsewhere. */
    function NewMeasureBT11(): (r: Double)
      reads this
      ensures isLand && bt7300.Finite? && bt8600.Finite? ==> r == Finite(bt7300.v - bt8600.v)
      ensures !isLand && bt7300.Finite? && bt11000.Finite? ==> r == Finite(bt7300.v - bt11000.v)
      ensures bt7300.NaN? ==> r.NaN?
    {
      if isLand then Sub(bt7300, bt8600) else Sub(bt7300, bt11000)
    }

    /** New 3/7: not computable from the available bands, always undefined. */
    function NewMeasureCO2(): (r: Double)
      ensures r.NaN?
    {
      NaN
    }

    /** New 4/7: BT3.7 minus BT8.6, for deserts. */
    function NewMeasureBT37minusBT87Deserts(): (r: Double)
      reads this
      ensures bt3700.Finite? && bt8600.Finite? ==> r == Finite(bt3700.v - bt8600.v)
      ensures bt3700.NaN? || bt8600.NaN? ==> r.NaN?
    {
      Sub(bt3700, bt8600)
    }

    /**
     * New 5/7: BT3.7 minus BT11 divided by the 600 nm reflectance. A zero
     * reflectance gives NaN when the temperatures agree and an infinity
     * otherwise.
     */
    function NewMeasurePositiveBT37minusBT11Day06Glint(): (r: Double)
      reads this
      ensures bt3700.Finite? && bt11000.Finite? && rho600.Finite? && rho600.v != 0.0
              ==> r == Finite((bt3700.v - bt11000.v) / rho600.v)
      ensures bt3700.Finite? && bt11000.Finite? && rho600 == Finite(0.0)
              ==> (r.NaN? <==> bt3700.v == bt11000.v) && !r.Finite?
      ensures bt3700.NaN? || bt11000.NaN? || rho600.NaN? ==> r.NaN?
    {
      Div(Sub(bt3700, bt11000), rho600)
    }

    /** New 6/7: the O2 absorption placeholder, always zero. */
    function NewMeasureO2Absorption(): (r: Double)
      ensures r == Finite(0.0)
    {
      Finite(0.0)
    }

    /** New 7/7: the BT11 uniformity combined with the BT11-BT3.7 uniformity at night, with rho600 by day. */
    function NewMeasureUniformityTwoChannels(): (r: Double)
      reads this
      ensures isNight && bt11Sample3x3.Finite? && diffBt11Bt37Sample3x3.Finite?
              ==> r == Finite(bt11Sample3x3.v * diffBt11Bt37Sample3x3.v)
      ensures !isNight && bt11Sample3x3.Finite? && rho600.Finite?
              ==> r == Finite(bt11Sample3x3.v * rho600.v)
      ensures bt11Sample3x3.NaN? || (isNight && diffBt11Bt37Sample3x3.NaN?) || (!isNight && rho600.NaN?)
              ==> r.NaN?
      ensures r == Combine(bt11Sample3x3, if isNight then diffBt11Bt37Sample3x3 else rho600)
    {
      if isNight then Combine(bt11Sample3x3, diffBt11Bt37Sample3x3) else Combine(bt11Sample3x3, rho600)
    }

    // -------------------------------------------------------------------
    // Setters: each one changes its own field only

    method SetIsLand(isLand: bool)
      modifies this
      ensures Inputs() == old(Inputs()).(isLand := isLand)
    {
      this.isLand := isLand;
    }

    method SetIsNight(isNight: bool)
      modifies this
      ensures Inputs() == old(Inputs()).(isNight := isNight)
    {
      this.isNight := isNight;
    }

    method SetBt11000(bt11000: Double)
      modifies this
      ensures Inputs() == old(Inputs()).(bt11000 := bt11000)
    {
      this.bt11000 := bt11000;
    }

    method SetBt12000(bt12000: Double)
      modifies this
      ensures Inputs() == old(Inputs()).(bt12000 := bt12000)
    {
      this.bt12000 := bt12000;
    }

    method SetBt3700(bt3700: Double)
      modifies this
      ensures Inputs() == old(Inputs()).(bt3700 := bt3700)
    {
      this.bt3700 := bt3700;
    }

    method SetBt7300(bt7300: Double)
      modifies this
      ensures Inputs() == old(Inputs()).(bt7300 := bt7300)
    {
      this.bt7300 := bt7300;
    }

    method SetBt8600(bt8600: Double)
      modifies this
      ensures Inputs() == old(Inputs()).(bt8600 := bt8600)
    {
      this.bt8600 := bt8600;
    }

    method SetTSkin(tSkin: Double)
      modifies this
      ensures Inputs() == old(Inputs()).(tSkin := tSkin)
    {
      this.tSkin := tSkin;
    }

    method SetRho860(rho860: Double)
      modifies this
      ensures Inputs() == old(Inputs()).(rho860 := rho860)
    {
      this.rho860 := rho860;
    }

    method SetRho600(rho600: Double)
      modifies this
      ensures Inputs() == old(Inputs()).(rho600 := rho600)
    {
      this.rho600 := rho600;
    }

    method SetBt11Sample3x3(bt11Sample3x3: Double)
      modifies this
      ensures Inputs() == old(Inputs()).(bt11Sample3x3 := bt11Sample3x3)
    {
      this.bt11Sample3x3 := bt11Sample3x3;
    }

    method SetRho1380(rho1380: Double)
      modifies this
      ensures Inputs() == old(Inputs()).(rho1380 := rho1380)
    {
      this.rho1380 := rho1380;
    }

    method SetDiffBt11Bt37Sample3x3(diffBt11Bt37Sample3x3: Double)
      modifies this
      ensures Inputs() == old(Inputs()).(diffBt11Bt37Sample3x3 := diffBt11Bt37Sample3x3)
    {
      this.diffBt11Bt37Sample3x3 := diffBt11Bt37Sample3x3;
    }
  }

  // ---------------------------------------------------------------------
  // Properties relating the measures

  /**
   * With defined reflectances exactly one of the two solar-brightness
   * measures is defined: the ocean one off land, the land one on land.
   */
  lemma BrightnessMeasuresPartition(m: ModisMeasures)
    requires !m.rho600.NaN? && !m.rho860.NaN?
    ensures m.HeritageMeasureSolarBrightnessThresholdsOcean().NaN?
            != m.HeritageMeasureSolarBrightnessThresholdsLand().NaN?
    ensures !m.HeritageMeasureSolarBrightnessThresholdsOcean().NaN? <==> !m.isLand
  {
  }

  /** The night-only measures are undefined by day, and the two of them always agree. */
  lemma NightMeasuresByDay(m: ModisMeasures)
    requires !m.isNight
    ensures m.HeritageMeasureNegativeBT37minusBT11Night().NaN?
    ensures m.HeritageMeasurePositiveBT37minusBT11NightMixedScene().NaN?
  {
  }

  /**
   * The two-channel uniformity measure equals the heritage uniformity
   * measure scaled by the second channel: the BT11-BT3.7 statistic at night
   * and rho600 by day.
   */
  lemma UniformityTwoChannelsScalesHeritage(m: ModisMeasures)
    requires m.bt11Sample3x3.Finite? && m.rho600.Finite? && m.diffBt11Bt37Sample3x3.Finite?
    ensures m.isNight ==> m.NewMeasureUniformityTwoChannels()
                          == Finite(m.HeritageMeasureUniformity().v * m.diffBt11Bt37Sample3x3.v)
    ensures !m.isNight ==> m.NewMeasureUniformityTwoChannels()
                           == Finite(m.HeritageMeasureUniformity().v * m.rho600.v)
  {
  }

  /** The input values of the measures example, with the given land and night flags. */
  function ExampleInputs(isLand: bool, isNight: bool): MeasureInputs {
    MeasureInputs(isLand, isNight, Finite(0.1), Finite(0.15), Finite(0.25), Finite(0.75), Finite(3.0),
                  Finite(9.0), Finite(12.0), Finite(15.0), Finite(288.0), Finite(12.0), Finite(9.0))
  }

  /**
   * The measures example at night over land. The heritage BT11 measure is
   * 12 - 288 = -276; the example's own expectation of 0 does not follow from
   * the formula.
   */
  lemma NightOverLandExample(m: ModisMeasures)
    requires m.Inputs() == ExampleInputs(true, true)
    ensures m.HeritageMeasureBT11() == Finite(-276.0)
    ensures m.HeritageMeasureSplitWindow() == Finite(-3.0)
    ensures m.HeritageMeasureNegativeBT37minusBT11Night() == Finite(-11.25)
    ensures m.HeritageMeasurePositiveBT37minusBT11NightMixedScene() == Finite(-11.25)
    ensures m.HeritageMeasureSolarBrightnessThresholdsOcean().NaN?
    ensures m.HeritageMeasureSolarBrightnessThresholdsLand() == Finite(0.1)
    ensures m.HeritageMeasureUniformity() == Finite(12.0)
    ensures m.NewMeasureR138WaterVapour() == Finite(0.25)
    ensures m.NewMeasureBT11() == Finite(-6.0)
    ensures m.NewMeasureBT37minusBT87Deserts() == Finite(-8.25)
    ensures m.NewMeasurePositiveBT37minusBT11Day06Glint() == Finite(-112.5)
    ensures m.NewMeasureUniformityTwoChannels() == Finite(108.0)
  {
  }

  /** The example at night over ocean, and by day over ocean. */
  lemma OceanExamples(m: ModisMeasures)
    requires m.Inputs() == ExampleInputs(false, true) || m.Inputs() == ExampleInputs(false, false)
    ensures m.HeritageMeasureSolarBrightnessThresholdsLand().NaN?
    ensures m.HeritageMeasureSolarBrightnessThresholdsOcean() == Finite(0.15)
    ensures m.NewMeasureBT11() == Finite(-9.0)
    ensures !m.isNight ==> m.HeritageMeasureNegativeBT37minusBT11Night().NaN?
    ensures !m.isNight ==> m.NewMeasureUniformityTwoChannels() == Finite(1.2)
  {
  }

  /** Setting every field through the setters yields exactly the values set. */
  method Configure(m: ModisMeasures, x: MeasureInputs)
    modifies m
    ensures m.Inputs() == x
  {
    m.SetIsLand(x.isLand);
    m.SetIsNight(x.isNight);
    m.SetRho600(x.rho600);
    m.SetRho860(x.rho860);
    m.SetRho1380(x.rho1380);
    m.SetBt3700(x.bt3700);
    m.SetBt7300(x.bt7300);
    m.SetBt8600(x.bt8600);
    m.SetBt11000(x.bt11000);
    m.SetBt12000(x.bt12000);
    m.SetTSkin(x.tSkin);
    m.SetBt11Sample3x3(x.bt11Sample3x3);
    m.SetDiffBt11Bt37Sample3x3(x.diffBt11Bt37Sample3x3);
  }
}

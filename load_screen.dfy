/**
 * The loading screen's progress bar: whatever fraction it is given, the
 * bar is filled to that fraction cut down to [0, 1].
 */
module LoadScreens {
  import opened Engine

  class LoadScreen {
    const hasFillImage: bool     // m_fillImage != null
    var fillAmount: real         // m_fillImage.fillAmount

    constructor (hasFillImage: bool, fillAmount: real)
      ensures this.hasFillImage == hasFillImage && this.fillAmount == fillAmount
    {
      this.hasFillImage := hasFillImage;
      this.fillAmount := fillAmount;
    }

    /**
     * `SetFillPercent`: above 1 becomes 1, then below 0 becomes 0, and the
     * result is written to the image (which must be set).
     */
    method SetFillPercent(fillPercent: real)
      requires hasFillImage
      modifies this
      ensures fillAmount == Clamp(fillPercent, 0.0, 1.0)
      ensures 0.0 <= fillAmount <= 1.0
      ensures fillAmount == fillPercent <==> 0.0 <= fillPercent <= 1.0
    {
      var fill := fillPercent;
      if fill > 1.0 {
        fill := 1.0;
      }
      if fill < 0.0 {
        fill := 0.0;
      }
      ClampSpec(fillPercent, 0.0, 1.0);
      fillAmount := fill;
    }
  }

  /** Filling the bar again with what it shows leaves it as it is. */
  lemma RefillIsIdempotent(x: real)
    ensures Clamp(Clamp(x, 0.0, 1.0), 0.0, 1.0) == Clamp(x, 0.0, 1.0)
  {
    ClampSpec(x, 0.0, 1.0);
  }
}

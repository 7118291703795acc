/**
 * Vocabulary shared by the Jacobian calculators (jacobian/base.py): the four
 * derivative tags and the operating point at which a derivative is taken.
 */
module JacobianBase {
  import opened Common

  /**
   * DxTypes: M / F picks the maternal or fetal layer (1 or 4), C / S picks a
   * change in haemoglobin concentration or in saturation.
   */
  datatype Dx = MC | MS | FC | FS

  /** The literal string each tag stands for. */
  function Tag(d: Dx): (s: string)
    ensures |s| == 2
    ensures s[0] == (if d.MC? || d.MS? then 'M' else 'F')
    ensures s[1] == (if d.MC? || d.FC? then 'C' else 'S')
  {
    match d
    case MC => "MC"
    case MS => "MS"
    case FC => "FC"
    case FS => "FS"
  }

  /** Reads a tag back; only the four literals of DxTypes are tags. */
  function ParseDx(s: string): (r: Option<Dx>)
    ensures r.Some? <==> s in {"MC", "MS", "FC", "FS"}
  {
    if s == "MC" then Some(MC)
    else if s == "MS" then Some(MS)
    else if s == "FC" then Some(FC)
    else if s == "FS" then Some(FS)
    else None
  }

  /** Parsing a tag's literal gives the tag back. */
  lemma ParseTag(d: Dx)
    ensures ParseDx(Tag(d)) == Some(d)
  {
  }

  /** A parsed string is the literal of the tag it parsed to: the four literals are distinct. */
  lemma TagOfParse(s: string)
    ensures ParseDx(s).Some? ==> Tag(ParseDx(s).value) == s
  {
  }

  /**
   * What the calculators test with `in`: a tag holds 'M' iff it is maternal,
   * 'C' iff it is a concentration change and 'S' iff it is a saturation change.
   */
  lemma {:induction false} TagLetters(d: Dx)
    ensures Contains(Tag(d), 'M') <==> d == MC || d == MS
    ensures Contains(Tag(d), 'C') <==> d == MC || d == FC
    ensures Contains(Tag(d), 'S') <==> d == MS || d == FS
  {
    var s := Tag(d);
    assert s == [s[0], s[1]];
  }

  /**
   * The operating point of a Jacobian: maternal and fetal haemoglobin (g/dL)
   * and saturation (0 to 1), and the wavelength index (1 for 735nm, 2 for
   * 850nm). A mutable record: its fields may be reassigned after construction.
   */
  class OperatingPoint {
    var maternalHb: real
    var maternalSat: real
    var fetalHb: real
    var fetalSat: real
    var waveInt: int

    constructor(maternalHb: real, maternalSat: real, fetalHb: real, fetalSat: real, waveInt: int)
      ensures this.maternalHb == maternalHb && this.maternalSat == maternalSat
      ensures this.fetalHb == fetalHb && this.fetalSat == fetalSat
      ensures this.waveInt == waveInt
    {
      this.maternalHb := maternalHb;
      this.maternalSat := maternalSat;
      this.fetalHb := fetalHb;
      this.fetalSat := fetalSat;
      this.waveInt := waveInt;
    }
  }
}

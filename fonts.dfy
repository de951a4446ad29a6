/**
 * The Font object.  Its "With" methods are not uniform: WithFamily
 * allocates a new Font, WithStyle returns the receiver untouched, and
 * WithWeight and WithSize change the receiver and return it.
 */
module Fonts {

  /** The observable state of a Font object, used to speak about fonts by value. */
  datatype FontValue = FontValue(family: string, bold: bool, size: real)

  class Font {
    var name: string
    var isBold: bool
    var size: real

    /** The state of this object as a value. */
    function Value(): (v: FontValue)
      reads this
      ensures v.family == name && v.bold == isBold && v.size == size
    {
      FontValue(name, isBold, size)
    }

    /** Font(): family "Georgia", size 16, not bold. */
    constructor Default()
      ensures Value() == FontValue("Georgia", false, 16.0)
    {
      name := "Georgia";
      isBold := false;
      size := 16.0;
    }

    /** Font(name, size): stores both; IsBold keeps its initialiser false. */
    constructor (name: string, size: real)
      ensures Value() == FontValue(name, false, size)
    {
      this.name := name;
      this.isBold := false;
      this.size := size;
    }

    /** The Name getter: reads the one name field. */
    function Name(): (n: string)
      reads this
      ensures n == Value().family
    {
      name
    }

    /** The Family getter: reads the same field as Name. */
    function Family(): (f: string)
      reads this
      ensures f == Name()
    {
      name
    }

    /** The Name setter. */
    method SetName(v: string)
      modifies this
      ensures Name() == v && Family() == v
      ensures isBold == old(isBold) && size == old(size)
    {
      name := v;
    }

    /** The Family setter: writes the same field as the Name setter. */
    method SetFamily(v: string)
      modifies this
      ensures Family() == v && Name() == v
      ensures isBold == old(isBold) && size == old(size)
    {
      name := v;
    }

    /** A new Font with the given family and this font's size; IsBold is reset to false. */
    method WithFamily(family: string) returns (f: Font)
      ensures fresh(f)
      ensures f.Value() == FontValue(family, false, size)
    {
      f := new Font(family, size);
    }

    /** Returns the receiver itself, whatever the style. */
    method WithStyle(style: string) returns (f: Font)
      ensures f == this
    {
      f := this;
    }

    /** Sets IsBold on the receiver to an exact, case-sensitive comparison with "bold", and returns it. */
    method WithWeight(weight: string) returns (f: Font)
      modifies this
      ensures f == this
      ensures Value() == old(Value()).(bold := weight == "bold")
    {
      isBold := weight == "bold";
      f := this;
    }

    /** Sets Size on the receiver and returns it. */
    method WithSize(newSize: real) returns (f: Font)
      modifies this
      ensures f == this
      ensures Value() == old(Value()).(size := newSize)
    {
      size := newSize;
      f := this;
    }
  }
}

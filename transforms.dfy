/**
 * The transform chain: each node holds one transform and a link to the
 * transform applied before it.  Printing a chain prints the oldest node
 * first.  No composition of the transforms is computed here.
 */
module Transforms {
  import opened Wrappers
  import opened Graphics
  import opened Strings

  /** The four node kinds; a matrix node owns its element array. */
  datatype Kind =
    | Matrix(elements: array<real>)
    | Translation(offset: Size)
    | Scaling(factor: Size)
    | Rotation(angle: real)

  /** The exceptions the checked matrix constructor throws. */
  datatype TransformError = ArgumentNull | Argument

  class Transform {
    /** The transform applied before this one (null at the start of a chain). */
    const previous: Transform?
    const kind: Kind
    /** The number of nodes before this one, which bounds the recursion over the chain. */
    ghost const depth: nat

    /** The links below this node are well founded. */
    ghost predicate Valid()
      decreases depth
    {
      previous != null ==> previous.depth < depth && previous.Valid()
    }

    /** MatrixTransform(previous): six elements, all zero (not the identity). */
    constructor Matrix(previous: Transform?)
      requires previous != null ==> previous.Valid()
      ensures Valid() && this.previous == previous
      ensures kind.Matrix? && fresh(kind.elements) && kind.elements.Length == 6
      ensures forall i :: 0 <= i < 6 ==> kind.elements[i] == 0.0
    {
      this.previous := previous;
      this.depth := if previous == null then 0 else previous.depth + 1;
      var zeros := new real[6](_ => 0.0);
      this.kind := Kind.Matrix(zeros);
    }

    /** Translate(size, previous). */
    constructor Translate(size: Size, previous: Transform?)
      requires previous != null ==> previous.Valid()
      ensures Valid() && this.previous == previous && kind == Translation(size)
    {
      this.previous := previous;
      this.depth := if previous == null then 0 else previous.depth + 1;
      this.kind := Translation(size);
    }

    /** Translate(offset, previous): the offset point read as a size. */
    constructor TranslatePoint(offset: Point, previous: Transform?)
      requires previous != null ==> previous.Valid()
      ensures Valid() && this.previous == previous && kind == Translation(Size(offset.x, offset.y))
    {
      this.previous := previous;
      this.depth := if previous == null then 0 else previous.depth + 1;
      this.kind := Translation(Size(offset.x, offset.y));
    }

    /** Translate(dx, dy, previous): the same as Translate(Size(dx, dy), previous). */
    constructor TranslateBy(dx: real, dy: real, previous: Transform?)
      requires previous != null ==> previous.Valid()
      ensures Valid() && this.previous == previous && kind == Translation(Size(dx, dy))
    {
      this.previous := previous;
      this.depth := if previous == null then 0 else previous.depth + 1;
      this.kind := Translation(Size(dx, dy));
    }

    /** Scale(size, previous). */
    constructor Scale(size: Size, previous: Transform?)
      requires previous != null ==> previous.Valid()
      ensures Valid() && this.previous == previous && kind == Scaling(size)
    {
      this.previous := previous;
      this.depth := if previous == null then 0 else previous.depth + 1;
      this.kind := Scaling(size);
    }

    /** Scale(dx, dy, previous): the same as Scale(Size(dx, dy), previous). */
    constructor ScaleBy(dx: real, dy: real, previous: Transform?)
      requires previous != null ==> previous.Valid()
      ensures Valid() && this.previous == previous && kind == Scaling(Size(dx, dy))
    {
      this.previous := previous;
      this.depth := if previous == null then 0 else previous.depth + 1;
      this.kind := Scaling(Size(dx, dy));
    }

    /** Rotate(angle, previous), the angle in degrees. */
    constructor Rotate(angle: real, previous: Transform?)
      requires previous != null ==> previous.Valid()
      ensures Valid() && this.previous == previous && kind == Rotation(angle)
    {
      this.previous := previous;
      this.depth := if previous == null then 0 else previous.depth + 1;
      this.kind := Rotation(angle);
    }

    /**
     * MatrixTransform(elements, previous): null elements throw
     * ArgumentNullException, a length other than 6 throws ArgumentException;
     * otherwise the elements are copied into a new array of the node's own.
     */
    static method MatrixOf(elements: array?<real>, previous: Transform?) returns (r: Result<Transform, TransformError>)
      requires previous != null ==> previous.Valid()
      ensures elements == null ==> r == Failure(ArgumentNull)
      ensures elements != null && elements.Length != 6 ==> r == Failure(Argument)
      ensures elements != null && elements.Length == 6 ==>
        r.Success? && fresh(r.value) && r.value.Valid() && r.value.previous == previous &&
        r.value.kind.Matrix? && fresh(r.value.kind.elements) && r.value.kind.elements[..] == elements[..]
    {
      var t := new Transform.Matrix(previous);
      if elements == null {
        return Failure(ArgumentNull);
      }
      if elements.Length != 6 {
        return Failure(Argument);
      }
      var copy := t.kind.elements;
      var i := 0;
      while i < 6
        invariant 0 <= i <= 6
        invariant forall k :: 0 <= k < i ==> copy[k] == elements[k]
        modifies copy
      {
        copy[i] := elements[i];
        i := i + 1;
      }
      return Success(t);
    }

    /**
     * ToCode: the node's own text; fmt is the culture-invariant number
     * format.  A matrix prints a fixed text whatever its elements.
     */
    function Code(fmt: real -> string): (s: string)
      ensures |s| > 1 && s[|s| - 1] == ')'
      ensures s[0] == 'm' <==> kind.Matrix?
      ensures s[0] == 't' <==> kind.Translation?
      ensures s[0] == 's' <==> kind.Scaling?
      ensures s[0] == 'r' <==> kind.Rotation?
      ensures kind.Matrix? ==> s == "matrix(...)"
      ensures kind.Translation? ==>
        s == "translate(" + fmt(kind.offset.width) + ", " + fmt(kind.offset.height) + ")"
      ensures kind.Scaling? ==>
        s == "scale(" + fmt(kind.factor.width) + ", " + fmt(kind.factor.height) + ")"
      ensures kind.Rotation? ==> s == "rotate(" + fmt(kind.angle) + ")"
    {
      match kind
      case Matrix(_) => "matrix(...)"
      case Translation(sz) => "translate(" + fmt(sz.width) + ", " + fmt(sz.height) + ")"
      case Scaling(sz) => "scale(" + fmt(sz.width) + ", " + fmt(sz.height) + ")"
      case Rotation(a) => "rotate(" + fmt(a) + ")"
    }

    /** ToString: the chain printed from its oldest node, each node after the previous one and a space. */
    function ToString(fmt: real -> string): (s: string)
      requires Valid()
      ensures s == Join(" ", Codes(Chain(), fmt))
      decreases depth
    {
      if previous == null then
        assert Codes(Chain(), fmt) == Codes([], fmt) + [Code(fmt)];
        Code(fmt)
      else
        ChainCodesStep(this, fmt);
        previous.ToString(fmt) + " " + Code(fmt)
    }

    /** The nodes of the chain that ends here, oldest first. */
    ghost function Chain(): (c: seq<Transform>)
      requires Valid()
      ensures c != [] && c[|c| - 1] == this
      ensures c[0].previous == null
      ensures forall i :: 0 < i < |c| ==> c[i].previous == c[i - 1]
      decreases depth
    {
      if previous == null then [this] else previous.Chain() + [this]
    }
  }

  /** The codes of a chain's nodes, in the chain's order. */
  function Codes(chain: seq<Transform>, fmt: real -> string): (cs: seq<string>)
    ensures |cs| == |chain|
    ensures forall i :: 0 <= i < |chain| ==> cs[i] == chain[i].Code(fmt)
  {
    if chain == [] then [] else Codes(chain[..|chain| - 1], fmt) + [chain[|chain| - 1].Code(fmt)]
  }

  /** One more node: its code joins the codes of the chain before it, after a space. */
  lemma ChainCodesStep(t: Transform, fmt: real -> string)
    requires t.Valid() && t.previous != null
    ensures Join(" ", Codes(t.Chain(), fmt)) == Join(" ", Codes(t.previous.Chain(), fmt)) + " " + t.Code(fmt)
  {
    var c, p := t.Chain(), t.previous.Chain();
    assert c[..|c| - 1] == p;
    assert Codes(c, fmt) == Codes(p, fmt) + [t.Code(fmt)];
    assert Codes(c, fmt)[..|Codes(c, fmt)| - 1] == Codes(p, fmt);
  }

  /** A node with nothing before it prints just its own code. */
  lemma SingleNode(t: Transform, fmt: real -> string)
    requires t.Valid() && t.previous == null
    ensures t.ToString(fmt) == t.Code(fmt)
    ensures t.Chain() == [t]
  {
  }

  /** Two matrix nodes print alike whatever their elements. */
  lemma MatrixCodeIgnoresElements(s: Transform, t: Transform, fmt: real -> string)
    requires s.kind.Matrix? && t.kind.Matrix?
    ensures s.Code(fmt) == t.Code(fmt)
  {
  }
}

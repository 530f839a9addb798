/**
 * Interactions and constraints: the two marker references an interaction
 * binds, how they are resolved by name when an element is loaded, and the
 * reaction-force buffer every constraint carries.
 */
module Interactions {
  import opened Wrappers
  import opened Algebra

  /** A marker, identified by the name of the part that owns it and its own name. */
  datatype MarkerRef = MarkerRef(part: string, marker: string)

  /** The model's part pool: each part's name mapped to the names in that part's marker pool. */
  type PartPool = map<string, set<string>>

  /** The two ends of an interaction: marker I on part m, marker J on part n. */
  datatype End = EndI | EndJ

  /** The four reference attributes of a stored element; None where the attribute is absent. */
  datatype RefAttributes = RefAttributes(prtM: Option<string>, makI: Option<string>, prtN: Option<string>, makJ: Option<string>)

  /** Why loading the references of an element failed. */
  datatype LoadError =
    | NoPartPool
    | MissingAttribute(name: string)
    | PartNotFound(end: End)
    | MarkerNotFound(end: End)
  {
    /** The end whose lookup failed, if the error concerns one. */
    function EndOf(): Option<End>
    {
      match this
      case NoPartPool => None
      case MissingAttribute(name) =>
        if name in {"prt_m", "mak_i"} then Some(EndI)
        else if name in {"prt_n", "mak_j"} then Some(EndJ)
        else None
      case PartNotFound(e) => Some(e)
      case MarkerNotFound(e) => Some(e)
    }
  }

  function PartAttribute(e: End): string { if e == EndI then "prt_m" else "prt_n" }

  function MarkerAttribute(e: End): string { if e == EndI then "mak_i" else "mak_j" }

  /** The part and marker named by the attributes exist, the marker inside that part. */
  predicate Resolvable(pool: PartPool, part: Option<string>, marker: Option<string>)
  {
    part.Some? && marker.Some? && part.value in pool && marker.value in pool[part.value]
  }

  /**
   * Resolves one end: the part attribute must be present and name a part of
   * the pool, then the marker attribute must be present and name a marker of
   * that part's own marker pool.
   */
  function ResolveEnd(pool: PartPool, part: Option<string>, marker: Option<string>, e: End): (r: Result<MarkerRef, LoadError>)
    ensures r.Success? <==> Resolvable(pool, part, marker)
    ensures r.Success? ==> r.value.part == part.value && r.value.marker == marker.value
    ensures r.Failure? ==> r.error.EndOf() == Some(e)
    ensures part.None? ==> r == Failure(MissingAttribute(PartAttribute(e)))
    ensures part.Some? && part.value !in pool ==> r == Failure(PartNotFound(e))
    ensures part.Some? && part.value in pool && marker.None? ==> r == Failure(MissingAttribute(MarkerAttribute(e)))
    ensures part.Some? && part.value in pool && marker.Some? && marker.value !in pool[part.value] ==> r == Failure(MarkerNotFound(e))
  {
    if part.None? then Failure(MissingAttribute(PartAttribute(e)))
    else if part.value !in pool then Failure(PartNotFound(e))
    else if marker.None? then Failure(MissingAttribute(MarkerAttribute(e)))
    else if marker.value !in pool[part.value] then Failure(MarkerNotFound(e))
    else Success(MarkerRef(part.value, marker.value))
  }

  /**
   * Reference resolution on load: the part pool must exist, then end I is
   * resolved, then end J. The first failing check decides the error.
   */
  function Resolve(pool: Option<PartPool>, a: RefAttributes): (r: Result<(MarkerRef, MarkerRef), LoadError>)
    ensures pool.None? ==> r == Failure(NoPartPool)
    ensures r.Success? <==> pool.Some? && Resolvable(pool.value, a.prtM, a.makI) && Resolvable(pool.value, a.prtN, a.makJ)
    ensures r.Success? ==> r.value.0 == MarkerRef(a.prtM.value, a.makI.value) && r.value.1 == MarkerRef(a.prtN.value, a.makJ.value)
    ensures r.Failure? && r.error.EndOf() == Some(EndJ) ==> pool.Some? && Resolvable(pool.value, a.prtM, a.makI)
    ensures pool.Some? && !Resolvable(pool.value, a.prtM, a.makI) ==> r.Failure? && r.error.EndOf() == Some(EndI)
    ensures pool.Some? && !Resolvable(pool.value, a.prtM, a.makI)
      ==> r == Failure(ResolveEnd(pool.value, a.prtM, a.makI, EndI).error)
    ensures pool.Some? && Resolvable(pool.value, a.prtM, a.makI) && !Resolvable(pool.value, a.prtN, a.makJ)
      ==> r == Failure(ResolveEnd(pool.value, a.prtN, a.makJ, EndJ).error)
  {
    if pool.None? then Failure(NoPartPool)
    else
      match ResolveEnd(pool.value, a.prtM, a.makI, EndI)
      case Failure(e) => Failure(e)
      case Success(mi) =>
        match ResolveEnd(pool.value, a.prtN, a.makJ, EndJ)
        case Failure(e) => Failure(e)
        case Success(mj) => Success((mi, mj))
  }

  /** A successful resolution yields two markers that exist in the pool, each inside the part named for it. */
  lemma ResolvedMarkersExist(pool: Option<PartPool>, a: RefAttributes)
    requires Resolve(pool, a).Success?
    ensures var (mi, mj) := Resolve(pool, a).value;
            pool.Some? && mi.part in pool.value && mi.marker in pool.value[mi.part]
            && mj.part in pool.value && mj.marker in pool.value[mj.part]
  {
  }

  /**
   * The state every constraint shares: the two marker references of its
   * interaction, its dimension and its reaction-force buffer of six entries,
   * of which the first `dim` are meaningful.
   */
  class Constraint {
    var makI: Option<MarkerRef>
    var makJ: Option<MarkerRef>
    const dim: nat
    const cf: array<real>

    ghost predicate Valid()
      reads this
    {
      1 <= dim <= 6 && cf.Length == 6
    }

    constructor (dim: nat, makI: Option<MarkerRef>, makJ: Option<MarkerRef>)
      requires 1 <= dim <= 6
      ensures Valid() && fresh(cf)
      ensures this.dim == dim && this.makI == makI && this.makJ == makJ
      ensures cf[..] == Zeros(6)
    {
      this.dim := dim;
      this.makI := makI;
      this.makJ := makJ;
      cf := new real[6](i => 0.0);
    }

    /** The reaction forces along the constrained directions. */
    function Cf(): (f: seq<real>)
      requires Valid()
      reads this, cf
      ensures |f| == dim
    {
      cf[..dim]
    }

    /** Copies the first dim values into the reaction-force buffer; the rest of the buffer is kept. */
    method SetCf(values: seq<real>)
      requires Valid() && |values| >= dim
      modifies cf
      ensures Cf() == values[..dim]
      ensures cf[dim..] == old(cf[dim..])
    {
      forall i | 0 <= i < dim {
        cf[i] := values[i];
      }
    }

    /**
     * Resolves the references of a stored element and binds them. Marker I
     * is bound as soon as end I resolves, so a failure on end J leaves the
     * new marker I bound next to the old marker J.
     */
    method LoadInteraction(pool: Option<PartPool>, a: RefAttributes) returns (res: Outcome<LoadError>)
      modifies this`makI, this`makJ
      ensures res.Pass? <==> Resolve(pool, a).Success?
      ensures res.Fail? ==> res.error == Resolve(pool, a).error
      ensures makI == if pool.Some? && Resolvable(pool.value, a.prtM, a.makI)
                      then Some(MarkerRef(a.prtM.value, a.makI.value)) else old(makI)
      ensures makJ == if res.Pass? then Some(MarkerRef(a.prtN.value, a.makJ.value)) else old(makJ)
    {
      if pool.None? {
        return Fail(NoPartPool);
      }
      var ri := ResolveEnd(pool.value, a.prtM, a.makI, EndI);
      if ri.Failure? {
        return Fail(ri.error);
      }
      makI := Some(ri.value);
      var rj := ResolveEnd(pool.value, a.prtN, a.makJ, EndJ);
      if rj.Failure? {
        return Fail(rj.error);
      }
      makJ := Some(rj.value);
      res := Pass;
    }

    /**
     * Loads a constraint: the interaction's references first, then, only if
     * they resolved, the reaction forces from the optional `cf` attribute
     * (zeros when it is absent).
     */
    method LoadXml(pool: Option<PartPool>, a: RefAttributes, cfAttribute: Option<seq<real>>) returns (res: Outcome<LoadError>)
      requires Valid() && (cfAttribute.Some? ==> |cfAttribute.value| == dim)
      modifies this`makI, this`makJ, cf
      ensures res.Pass? <==> Resolve(pool, a).Success?
      ensures res.Fail? ==> res.error == Resolve(pool, a).error
      ensures makI == if pool.Some? && Resolvable(pool.value, a.prtM, a.makI)
                      then Some(MarkerRef(a.prtM.value, a.makI.value)) else old(makI)
      ensures makJ == if res.Pass? then Some(MarkerRef(a.prtN.value, a.makJ.value)) else old(makJ)
      ensures res.Pass? ==> Cf() == cfAttribute.GetOr(Zeros(dim)) && cf[dim..] == old(cf[dim..])
      ensures res.Fail? ==> cf[..] == old(cf[..])
    {
      res := LoadInteraction(pool, a);
      if res.Pass? {
        SetCf(cfAttribute.GetOr(Zeros(dim)));
      }
    }
  }
}

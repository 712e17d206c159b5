/** The type decision table (`determine_type`). */
module TypeClassifier {
  import C = Centers

  datatype HdType = Reflector | Manifestor | ManifestingGenerator | Generator | Projector

  /** The label the source returns for each type. */
  function Label(t: HdType): string
  {
    match t
    case Reflector => "Reflector"
    case Manifestor => "Manifestor"
    case ManifestingGenerator => "Manifesting Generator"
    case Generator => "Generator"
    case Projector => "Projector"
  }

  /** Distinct types carry distinct labels. */
  lemma LabelsDistinct(t1: HdType, t2: HdType)
    ensures Label(t1) == Label(t2) <==> t1 == t2
  {
  }

  /** `centers.get(c, False)`. */
  function Get(centers: map<C.Center, bool>, c: C.Center): bool
  {
    if c in centers then centers[c] else false
  }

  /** `determine_type`, first match wins.  The last `else` cannot be reached:
      the four guards before it cover every pair of flags. */
  function DetermineType(centers: map<C.Center, bool>): (t: HdType)
    ensures t == Reflector <==> forall c :: c in centers ==> !centers[c]
    ensures t == Manifestor <==> !Get(centers, C.Sacral) && Get(centers, C.Manifestor)
    ensures t == ManifestingGenerator <==> Get(centers, C.Sacral) && Get(centers, C.Manifestor)
    ensures t == Generator <==> Get(centers, C.Sacral) && !Get(centers, C.Manifestor)
    ensures t == Projector <==>
      !Get(centers, C.Sacral) && !Get(centers, C.Manifestor) && exists c :: c in centers && centers[c]
  {
    var sacral := Get(centers, C.Sacral);
    var manifestor := Get(centers, C.Manifestor);
    if true !in centers.Values then Reflector
    else if !sacral && manifestor then Manifestor
    else if sacral && manifestor then ManifestingGenerator
    else if sacral && !manifestor then Generator
    else if !sacral && !manifestor then Projector
    else assert false; Projector
  }
}

/** Static description of an effect type: identity, display text and an
    ordered list of parameter descriptors. A manifest is built once per
    effect type and never changes afterwards.
 */
module EffectManifest {

  /** The UI control hint. The phaser uses only the linear knob. */
  datatype ControlHint = ControlKnobLinear

  /** The semantic hint. The phaser uses only "unknown". */
  datatype SemanticHint = SemanticUnknown

  /** The units hint. The phaser uses only "unknown". */
  datatype UnitsHint = UnitsUnknown

  datatype Parameter = Parameter(
    id: string,
    name: string,
    description: string,
    controlHint: ControlHint,
    semanticHint: SemanticHint,
    unitsHint: UnitsHint,
    default: real,
    minimum: real,
    maximum: real)

  datatype Manifest = Manifest(
    id: string,
    name: string,
    author: string,
    version: string,
    description: string,
    parameters: seq<Parameter>)

  /** A manifest's parameter list grows by one descriptor at its end: the
      earlier descriptors keep their positions, the new one comes last, and
      nothing else in the manifest changes. */
  function AddParameter(m: Manifest, p: Parameter): (r: Manifest)
    ensures |r.parameters| == |m.parameters| + 1
    ensures r.parameters[|m.parameters|] == p
    ensures forall i :: 0 <= i < |m.parameters| ==> r.parameters[i] == m.parameters[i]
    ensures r.(parameters := m.parameters) == m
  {
    m.(parameters := m.parameters + [p])
  }

  /** The parameter ids, in declaration order. */
  function Ids(ps: seq<Parameter>): (ids: seq<string>)
    ensures |ids| == |ps|
    ensures forall i :: 0 <= i < |ps| ==> ids[i] == ps[i].id
  {
    seq(|ps|, i requires 0 <= i < |ps| => ps[i].id)
  }

  /** The bounds of a descriptor are ordered: minimum <= default <= maximum. */
  predicate BoundsOrdered(p: Parameter)
  {
    p.minimum <= p.default <= p.maximum
  }

  /** No two descriptors share an id. */
  predicate IdsDistinct(ps: seq<Parameter>)
  {
    forall i, j :: 0 <= i < j < |ps| ==> ps[i].id != ps[j].id
  }

  /** Every descriptor has ordered bounds and the ids are unique. */
  predicate WellFormed(m: Manifest)
  {
    && (forall i :: 0 <= i < |m.parameters| ==> BoundsOrdered(m.parameters[i]))
    && IdsDistinct(m.parameters)
  }

  /** Adding a descriptor keeps a manifest well formed exactly when the new
      descriptor has ordered bounds and an id not already in use. */
  lemma AddParameterWellFormed(m: Manifest, p: Parameter)
    ensures WellFormed(AddParameter(m, p)) <==>
      && WellFormed(m)
      && BoundsOrdered(p)
      && p.id !in Ids(m.parameters)
  {
    var ps := AddParameter(m, p).parameters;
    assert ps[..|m.parameters|] == m.parameters;
    assert ps[|m.parameters|] == p;
    if p.id in Ids(m.parameters) {
      var i :| 0 <= i < |m.parameters| && Ids(m.parameters)[i] == p.id;
      assert ps[i].id == ps[|m.parameters|].id;
    }
  }
}

/** The declarative model a finalizer receives, and what building and validating it establish. */
module Models {
  import opened Options
  import opened Paths

  datatype VertexKind = State | Submachine | Final | Initial | Choice | ShallowHistory | DeepHistory

  datatype Vertex = Vertex(kind: VertexKind, transitions: seq<Path>, initial: Option<Path>, deferred: seq<string>)

  datatype TransitionKind = Internal | External | Local | Self

  datatype Transition = Transition(
    name: Path,
    source: Path,
    target: Option<Path>,
    guard: Option<string>,
    events: seq<string>,
    kind: TransitionKind)

  /** `parts` are the names of the other members: behaviours, guards, observers. */
  datatype Model = Model(
    root: Path,
    vertices: map<Path, Vertex>,
    transitions: map<Path, Transition>,
    parts: set<Path>)

  const ANY_EVENT := "*"
  const FINAL_EVENT := "hsm/final"

  predicate IsComposite(k: VertexKind) {
    k.State? || k.Submachine?
  }

  /** kind.Is(k, StateKind): final states and submachine states are states. */
  predicate IsState(k: VertexKind) {
    IsComposite(k) || k.Final?
  }

  predicate IsHistory(k: VertexKind) {
    k.ShallowHistory? || k.DeepHistory?
  }

  /** Every named element. */
  function Members(m: Model): set<Path> {
    m.vertices.Keys + m.transitions.Keys + m.parts
  }

  predicate HasState(m: Model, p: Path) {
    p in m.vertices && IsState(m.vertices[p].kind)
  }

  predicate HasHistory(m: Model, owner: Path, k: VertexKind) {
    exists h :: h in m.vertices && h != [] && Dir(h) == owner && m.vertices[h].kind == k
  }

  /** The kind a transition gets when none is declared. */
  function InferredKind(source: Path, target: Option<Path>): TransitionKind {
    if target == Some(source) then Self
    else if target.None? then Internal
    else if IsAncestor(source, target.value) then Local
    else External
  }

  /** A vertex other than the root is owned by a composite state. */
  predicate Owned(m: Model, p: Path) {
    && AtOrAbove(m.root, p)
    && (p != m.root ==> Dir(p) in m.vertices && IsComposite(m.vertices[Dir(p)].kind))
  }

  ghost predicate Nested(m: Model) {
    && |m.root| == 1
    && m.root in m.vertices
    && m.vertices[m.root].kind == State
    && forall p {:trigger Owned(m, p)} :: p in m.vertices ==> Owned(m, p)
  }

  ghost predicate ValidTransition(m: Model, t: Transition) {
    && t.source in m.vertices
    && t.kind == InferredKind(t.source, t.target)
    && (t.target.Some? ==> t.target.value in m.vertices)
    && (t.target.None? ==> IsState(m.vertices[t.source].kind))
    && (m.vertices[t.source].kind.Initial? && t.target.Some? ==> AtOrAbove(Dir(t.source), t.target.value))
  }

  ghost predicate ValidVertex(m: Model, p: Path) {
    p in m.vertices ==>
    var v := m.vertices[p];
    && (v.initial.Some? ==>
          && v.initial.value in m.vertices
          && m.vertices[v.initial.value].kind.Initial?
          && v.initial.value != []
          && Dir(v.initial.value) == p)
    && forall n :: n in v.transitions && n in m.transitions ==> m.transitions[n].source == p
  }

  /** A name among the members need not be a vertex: a transition can be aimed at a behaviour. */
  predicate AimsAtVertex(m: Model, t: Transition) {
    t.target.Some? ==> t.target.value in m.vertices
  }

  predicate AimsAtVertices(m: Model) {
    forall n :: n in m.transitions && m.transitions[n].source in m.vertices ==> AimsAtVertex(m, m.transitions[n])
  }

  /** What the builders and validators guarantee of a model without connection points, whose
      transition kinds were inferred. */
  ghost predicate Structured(m: Model) {
    && Nested(m)
    && (forall p {:trigger ValidVertex(m, p)} :: ValidVertex(m, p))
    && (forall n :: n in m.transitions ==>
          && m.transitions[n].name == n
          && (m.transitions[n].source in m.vertices && AimsAtVertex(m, m.transitions[n]) ==>
                ValidTransition(m, m.transitions[n])))
  }

  /** Some live branch of the vertex has no guard, so that one branch is always enabled. */
  predicate HasDefault(m: Model, p: Path) {
    && p in m.vertices
    && exists n :: n in m.vertices[p].transitions && n in m.transitions && m.transitions[n].guard.None?
  }

  /** Entering the vertex never gives up: it is no initial vertex, and a choice only with a default. */
  predicate Enterable(m: Model, p: Path)
    requires p in m.vertices
  {
    !m.vertices[p].kind.Initial? && (m.vertices[p].kind.Choice? ==> HasDefault(m, p))
  }

  predicate Lands(m: Model, t: Transition) {
    t.target.Some? ==> t.target.value in m.vertices && Enterable(m, t.target.value)
  }

  /** No builder and no validator checks this: it is for the caller to check. */
  predicate Landing(m: Model) {
    forall n :: n in m.transitions && m.transitions[n].source in m.vertices ==> Lands(m, m.transitions[n])
  }

  ghost predicate WellFormed(m: Model) {
    Structured(m) && Landing(m)
  }

  /** Every path between the root and a vertex is a composite state. */
  lemma {:induction false} PrefixesAreComposite(m: Model, p: Path, n: nat)
    requires Nested(m) && p in m.vertices && 1 <= n < |p|
    ensures p[..n] in m.vertices && IsComposite(m.vertices[p[..n]].kind)
    decreases |p|
  {
    assert Owned(m, p) && p != m.root;
    if n == |p| - 1 {
      assert p[..n] == Dir(p);
    } else {
      PrefixesAreComposite(m, Dir(p), n);
      assert Dir(p)[..n] == p[..n];
    }
  }
}

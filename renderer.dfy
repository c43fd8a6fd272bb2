// The model-matrix stack every renderer keeps while it walks the scene, and
// the renderer's own view matrix. Matrix arithmetic belongs to the vector
// library and is not part of this model: a matrix is kept as the expression
// of operations that built it, so what is proved is which matrix is saved,
// restored and recomputed when.
module Transforms {
  import opened Base

  /** A 4×4 matrix, as the sequence of operations that produced it. */
  datatype Matrix =
    | Identity                                  // loadIdentity, and a default-constructed Matrix4
    | Translation(base: Matrix, offset: Vec3)   // base.translate(x, y, z)
    | Rotation(base: Matrix, angles: Vec3)      // base.rotate(x, y, z)
    | Scaling(base: Matrix, factors: Vec3)      // base.scale(x, y, z)
    | InverseScaling(base: Matrix, divisors: Vec3)  // base.scale(1 / x, 1 / y, 1 / z)
    | InverseTranspose(base: Matrix)            // a copy, inverted, then transposed
    | Product(left: Matrix, right: Matrix)      // left * right

  /** The placement of a scene object: its location, Euler angles and scale. */
  datatype Placement = Placement(location: Vec3, angle: Vec3, scale: Vec3)

  /** The model matrix of an object placed inside `parent`: translate, then rotate, then scale. */
  function ObjectMatrix(parent: Matrix, p: Placement): Matrix
  {
    Scaling(Rotation(Translation(parent, p.location), p.angle), p.scale)
  }

  /** The view matrix of a camera applied to `view`: rotate and translate by the negated placement, then divide by its scale. */
  function CameraView(view: Matrix, camera: Placement): Matrix
  {
    InverseScaling(Translation(Rotation(view, Neg(camera.angle)), Neg(camera.location)), camera.scale)
  }

  /** The whole state of a SceneTransformStack: the saved matrices (bottom first), the model and the normal matrix. */
  datatype StackState = StackState(saved: seq<Matrix>, model: Matrix, normal: Matrix)

  /** pushObject: save the model matrix, compose the object's placement, recompute the normal matrix. */
  function PushObjectState(s: StackState, p: Placement): StackState
  {
    var model := ObjectMatrix(s.model, p);
    StackState(s.saved + [s.model], model, InverseTranspose(model))
  }

  /** popObject: restore the matrix on top of the stack; the normal matrix is left as it is. */
  function PopObjectState(s: StackState): StackState
    requires |s.saved| > 0
  {
    StackState(s.saved[..|s.saved| - 1], s.saved[|s.saved| - 1], s.normal)
  }

  /** reset: an empty stack, the identity model matrix and a normal matrix equal to it. */
  function ResetState(s: StackState): StackState
  {
    StackState([], Identity, Identity)
  }

  /** Push every placement of `ps` in order. */
  function PushAll(s: StackState, ps: seq<Placement>): StackState
  {
    if ps == [] then s else PushObjectState(PushAll(s, ps[..|ps| - 1]), ps[|ps| - 1])
  }

  /** Pop `n` times. */
  function PopN(s: StackState, n: nat): StackState
    requires n <= |s.saved|
    decreases n
  {
    if n == 0 then s else PopN(PopObjectState(s), n - 1)
  }

  /**
   * A pop right after a push gives back the stack and the model matrix as
   * they were; the normal matrix stays the one the push computed.
   */
  lemma PopUndoesPush(s: StackState, p: Placement)
    ensures |PushObjectState(s, p).saved| == |s.saved| + 1
    ensures var r := PopObjectState(PushObjectState(s, p));
            r.saved == s.saved && r.model == s.model && r.normal == InverseTranspose(ObjectMatrix(s.model, p))
  {
    assert (s.saved + [s.model])[..|s.saved|] == s.saved;
  }

  /** Pushing `ps` grows the stack by `|ps|` and keeps what was saved below. */
  lemma {:induction false} PushAllGrows(s: StackState, ps: seq<Placement>)
    ensures |PushAll(s, ps).saved| == |s.saved| + |ps|
    ensures PushAll(s, ps).saved[..|s.saved|] == s.saved
    decreases |ps|
  {
    if ps != [] {
      PushAllGrows(s, ps[..|ps| - 1]);
      var t := PushAll(s, ps[..|ps| - 1]);
      assert (t.saved + [t.model])[..|s.saved|] == t.saved[..|s.saved|];
    }
  }

  /** What popping does to the stack and the model matrix does not depend on the normal matrix. */
  lemma {:induction false} PopNIgnoresNormal(s: StackState, t: StackState, n: nat)
    requires n <= |s.saved| && s.saved == t.saved && s.model == t.model
    ensures PopN(s, n).saved == PopN(t, n).saved && PopN(s, n).model == PopN(t, n).model
    decreases n
  {
    if n > 0 {
      PopNIgnoresNormal(PopObjectState(s), PopObjectState(t), n - 1);
    }
  }

  /**
   * The stack is last-in first-out: any nesting of pushes undone by as many
   * pops restores the saved matrices and the model matrix.
   */
  lemma {:induction false} NestedPushesUndone(s: StackState, ps: seq<Placement>)
    ensures |PushAll(s, ps).saved| == |s.saved| + |ps|
    ensures PopN(PushAll(s, ps), |ps|).saved == s.saved
    ensures PopN(PushAll(s, ps), |ps|).model == s.model
    decreases |ps|
  {
    PushAllGrows(s, ps);
    if ps != [] {
      var init := ps[..|ps| - 1];
      var t := PushAll(s, init);
      NestedPushesUndone(s, init);
      PopUndoesPush(t, ps[|ps| - 1]);
      var popped := PopObjectState(PushAll(s, ps));
      PopNIgnoresNormal(popped, t, |init|);
    }
  }

  /**
   * Reset pops every saved matrix: popping as many times as there are saved
   * matrices empties the stack, and a reset is that followed by loading the
   * identity into the model and normal matrices.
   */
  lemma {:induction false} ResetPopsEverything(s: StackState)
    ensures PopN(s, |s.saved|).saved == []
    ensures ResetState(s) == PopN(s, |s.saved|).(model := Identity, normal := Identity)
    decreases |s.saved|
  {
    if |s.saved| > 0 {
      ResetPopsEverything(PopObjectState(s));
    }
  }

  class SceneTransformStack {
    var modelMatrixStack: seq<Matrix>
    var modelMatrix: Matrix
    var normalMatrix: Matrix

    function State(): StackState
      reads this
    {
      StackState(modelMatrixStack, modelMatrix, normalMatrix)
    }

    /** The member matrices are default-constructed, that is identity, and the stack is empty. */
    constructor ()
      ensures State() == StackState([], Identity, Identity)
    {
      modelMatrixStack := [];
      modelMatrix := Identity;
      normalMatrix := Identity;
    }

    /** pushModelMatrix. */
    method PushModelMatrix()
      modifies this
      ensures modelMatrixStack == old(modelMatrixStack) + [old(modelMatrix)]
      ensures modelMatrix == old(modelMatrix) && normalMatrix == old(normalMatrix)
    {
      modelMatrixStack := modelMatrixStack + [modelMatrix];
    }

    /** popModelMatrix: `top` of an empty std::stack is undefined, so the stack must not be empty. */
    method PopModelMatrix()
      requires |modelMatrixStack| > 0
      modifies this
      ensures State() == PopObjectState(old(State()))
    {
      modelMatrix := modelMatrixStack[|modelMatrixStack| - 1];
      modelMatrixStack := modelMatrixStack[..|modelMatrixStack| - 1];
    }

    /** pushObject. */
    method PushObject(p: Placement)
      modifies this
      ensures State() == PushObjectState(old(State()), p)
    {
      PushModelMatrix();
      modelMatrix := Translation(modelMatrix, p.location);
      modelMatrix := Rotation(modelMatrix, p.angle);
      modelMatrix := Scaling(modelMatrix, p.scale);
      normalMatrix := modelMatrix;
      normalMatrix := InverseTranspose(normalMatrix);
    }

    /** popObject. */
    method PopObject()
      requires |modelMatrixStack| > 0
      modifies this
      ensures State() == PopObjectState(old(State()))
    {
      PopModelMatrix();
    }

    /** reset: pop until empty, then identity. */
    method Reset()
      modifies this
      ensures State() == ResetState(old(State()))
    {
      while |modelMatrixStack| > 0
        invariant modelMatrixStack <= old(modelMatrixStack)
        decreases |modelMatrixStack|
      {
        modelMatrixStack := modelMatrixStack[..|modelMatrixStack| - 1];
      }
      modelMatrix := Identity;
      normalMatrix := modelMatrix;
    }
  }

  /** The part of `Renderer` shared by every renderer: the view matrix and the transform stack. */
  class Renderer {
    var viewMatrix: Matrix
    const transformStack: SceneTransformStack

    constructor ()
      ensures fresh(transformStack) && transformStack.State() == StackState([], Identity, Identity)
      ensures viewMatrix == Identity
    {
      viewMatrix := Identity;
      transformStack := new SceneTransformStack();
    }

    /** resetTransformMatrices: identity view matrix and a reset stack. */
    method ResetTransformMatrices()
      modifies this, transformStack
      ensures viewMatrix == Identity
      ensures transformStack.State() == ResetState(old(transformStack.State()))
    {
      viewMatrix := Identity;
      transformStack.Reset();
    }

    /** applyCameraTransform: compose the inverse of the camera's placement onto the view matrix. */
    method ApplyCameraTransform(camera: Placement)
      modifies this
      ensures viewMatrix == CameraView(old(viewMatrix), camera)
    {
      viewMatrix := Rotation(viewMatrix, Neg(camera.angle));
      viewMatrix := Translation(viewMatrix, Neg(camera.location));
      viewMatrix := InverseScaling(viewMatrix, camera.scale);
    }
  }
}

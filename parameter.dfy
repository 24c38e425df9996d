/** `nn.core.Parameter`: a named tensor with an optional gradient buffer.
    The buffer starts absent, is replaced by `SetGrad`, summed into by
    `AddGrad` and dropped by `ZeroGrad`. */
module Parameters {
  import opened Wrappers
  import opened TensorData

  /** What `addGrad(g)` leaves in the buffer: `g` itself when it was absent,
      otherwise the element-wise sum (which rejects a shape mismatch). */
  function Accumulated(grad: Option<Tensor>, g: Tensor): (res: Result<Tensor>)
    requires WellFormed(g) && (grad.Some? ==> WellFormed(grad.value))
    ensures grad.None? ==> res == Ok(g)
    ensures grad.Some? ==> (res.Ok? <==> grad.value.shape == g.shape)
    ensures res.Err? ==> res.error == LibraryShape
    ensures res.Ok? ==> res.value.shape == g.shape && WellFormed(res.value)
    ensures grad.Some? && res.Ok? ==>
              forall i :: 0 <= i < |g.data| ==> res.value.data[i] - grad.value.data[i] == g.data[i]
  {
    if grad.None? then Ok(g) else Add(grad.value, g)
  }

  /** Accumulating two gradients in either order gives the same buffer. */
  lemma AccumulateOrder(grad: Tensor, g1: Tensor, g2: Tensor)
    requires WellFormed(grad) && WellFormed(g1) && WellFormed(g2)
    requires grad.shape == g1.shape == g2.shape
    ensures Accumulated(Some(grad), g1).Ok? && Accumulated(Some(grad), g2).Ok?
    ensures Accumulated(Some(Accumulated(Some(grad), g1).value), g2) ==
            Accumulated(Some(Accumulated(Some(grad), g2).value), g1)
  {
    var a := Accumulated(Some(Accumulated(Some(grad), g1).value), g2).value;
    var b := Accumulated(Some(Accumulated(Some(grad), g2).value), g1).value;
    assert a.data == b.data;
  }

  class Parameter {
    const name: string
    var data: Tensor
    var grad: Option<Tensor>
    var trainable: bool

    /** Every tensor held is well formed. */
    predicate Valid()
      reads this
    {
      WellFormed(data) && (grad.Some? ==> WellFormed(grad.value))
    }

    /** `new Parameter(name, data, trainable)`: no gradient yet. */
    constructor (name: string, data: Tensor, trainable: bool)
      requires WellFormed(data)
      ensures Valid()
      ensures this.name == name && this.data == data && this.trainable == trainable && grad == None
    {
      this.name := name;
      this.data := data;
      this.grad := None;
      this.trainable := trainable;
    }

    /** `setData`: replaces the data and nothing else. */
    method SetData(data: Tensor)
      requires Valid() && WellFormed(data)
      modifies this
      ensures Valid()
      ensures this.data == data && grad == old(grad) && trainable == old(trainable)
    {
      this.data := data;
    }

    /** `setGrad`: replaces the gradient and nothing else. */
    method SetGrad(g: Tensor)
      requires Valid() && WellFormed(g)
      modifies this
      ensures Valid()
      ensures grad == Some(g) && data == old(data) && trainable == old(trainable)
    {
      grad := Some(g);
    }

    method SetTrainable(trainable: bool)
      modifies this
      ensures this.trainable == trainable && data == old(data) && grad == old(grad)
    {
      this.trainable := trainable;
    }

    /** `zeroGrad`: the gradient becomes absent (so a second call changes
        nothing). */
    method ZeroGrad()
      requires Valid()
      modifies this
      ensures Valid()
      ensures grad == None && data == old(data) && trainable == old(trainable)
    {
      grad := None;
    }

    /** `addGrad(g)`: store `g` when there is no gradient, otherwise the sum;
        a shape mismatch throws and leaves the buffer as it was. */
    method AddGrad(g: Tensor) returns (out: Outcome)
      requires Valid() && WellFormed(g)
      modifies this
      ensures Valid()
      ensures data == old(data) && trainable == old(trainable)
      ensures out.Pass? <==> Accumulated(old(grad), g).Ok?
      ensures out.Pass? ==> grad == Some(Accumulated(old(grad), g).value)
      ensures out.Fail? ==> out.error == LibraryShape && grad == old(grad)
    {
      if grad.None? {
        grad := Some(g);
        return Pass;
      }
      var sum := Add(grad.value, g);
      if sum.Err? {
        return Fail(sum.error);
      }
      grad := Some(sum.value);
      return Pass;
    }
  }
}

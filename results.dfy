/** The outcome of one Step Function invocation: an immutable value built through a mutable builder. */
module Results {
  import opened Wrappers

  datatype InvokeStepFunctionResult = InvokeStepFunctionResult(
    output: Option<string>,
    executionArn: Option<string>,
    success: bool)
  {
    /** equals(o): o (None is null) is a result with the same success flag, output and execution ARN */
    function Equals(o: Option<InvokeStepFunctionResult>): (r: bool)
      ensures r <==> o == Some(this)
    {
      match o
      case None => false
      case Some(that) => success == that.success && output == that.output && executionArn == that.executionArn
    }
  }

  /** InvokeStepFunctionResult.Builder; every setter answers the builder itself, for chaining */
  class Builder {
    var output: Option<string>
    var executionArn: Option<string>
    var success: bool

    /** InvokeStepFunctionResult.builder() */
    constructor ()
      ensures output == None && executionArn == None && !success
    {
      output := None;
      executionArn := None;
      success := false;
    }

    /** The result build() makes of the builder's current fields */
    function Build(): (r: InvokeStepFunctionResult)
      reads this
      ensures r.output == output && r.executionArn == executionArn && r.success == success
    {
      InvokeStepFunctionResult(output, executionArn, success)
    }

    method FromPrototype(prototype: InvokeStepFunctionResult) returns (self: Builder)
      modifies this
      ensures self == this && Build() == prototype
    {
      output := prototype.output;
      executionArn := prototype.executionArn;
      success := prototype.success;
      self := this;
    }

    method SetOutput(v: Option<string>) returns (self: Builder)
      modifies this`output
      ensures self == this && output == v
    {
      output := v;
      self := this;
    }

    method SetExecutionArn(v: Option<string>) returns (self: Builder)
      modifies this`executionArn
      ensures self == this && executionArn == v
    {
      executionArn := v;
      self := this;
    }

    method SetSuccess(v: bool) returns (self: Builder)
      modifies this`success
      ensures self == this && success == v
    {
      success := v;
      self := this;
    }
  }

  /** InvokeStepFunctionResult.builder(prototype) */
  method BuilderOf(prototype: InvokeStepFunctionResult) returns (b: Builder)
    ensures fresh(b) && b.Build() == prototype
  {
    b := new Builder();
    b := b.FromPrototype(prototype);
  }

  /** builder().build(): no output, no execution ARN, not a success */
  method DefaultResult() returns (r: InvokeStepFunctionResult)
    ensures r == InvokeStepFunctionResult(None, None, false)
  {
    var b := new Builder();
    r := b.Build();
  }

  /** builder(p).build() gives p back */
  method Rebuild(p: InvokeStepFunctionResult) returns (r: InvokeStepFunctionResult)
    ensures r == p
  {
    var b := BuilderOf(p);
    r := b.Build();
  }

  /** builder(p).success(s).build() differs from p in the success flag alone */
  method RebuildWithSuccess(p: InvokeStepFunctionResult, s: bool) returns (r: InvokeStepFunctionResult)
    ensures r == p.(success := s)
  {
    var b := BuilderOf(p);
    b := b.SetSuccess(s);
    r := b.Build();
  }
}

/**
 * The configuration of one Step Function invocation: an immutable value built
 * through a mutable builder.
 */
module Configs {
  import opened Wrappers
  import opened JavaLang

  const DEFAULT_POLL_INTERVAL: Duration := OfSeconds(30)

  datatype InvokeStepFunctionConfig = InvokeStepFunctionConfig(
    awsAccessKeyId: Option<string>,
    awsSecretKey: Option<string>,
    awsRegion: Option<string>,
    stateMachineArn: Option<string>,
    pollInterval: Duration,
    payload: Option<string>)
  {
    /** equals(o): o (None is null) is a configuration whose six fields equal these */
    function Equals(o: Option<InvokeStepFunctionConfig>): (r: bool)
      ensures r <==> o == Some(this)
    {
      match o
      case None => false
      case Some(c) =>
        && awsAccessKeyId == c.awsAccessKeyId
        && awsSecretKey == c.awsSecretKey
        && awsRegion == c.awsRegion
        && stateMachineArn == c.stateMachineArn
        && pollInterval == c.pollInterval
        && payload == c.payload
    }
  }

  /** InvokeStepFunctionConfig.Builder; every setter answers the builder itself, for chaining */
  class Builder {
    var awsAccessKeyId: Option<string>
    var awsSecretKey: Option<string>
    var awsRegion: Option<string>
    var stateMachineArn: Option<string>
    var pollInterval: Duration
    var payload: Option<string>

    /** InvokeStepFunctionConfig.builder() */
    constructor ()
      ensures awsAccessKeyId == Some("") && awsSecretKey == Some("") && awsRegion == Some("")
      ensures stateMachineArn == None && pollInterval == DEFAULT_POLL_INTERVAL && payload == None
    {
      awsAccessKeyId := Some("");
      awsSecretKey := Some("");
      awsRegion := Some("");
      stateMachineArn := None;
      pollInterval := DEFAULT_POLL_INTERVAL;
      payload := None;
    }

    /** The configuration build() makes of the builder's current fields */
    function Build(): (c: InvokeStepFunctionConfig)
      reads this
      ensures c.awsAccessKeyId == awsAccessKeyId && c.awsSecretKey == awsSecretKey
      ensures c.awsRegion == awsRegion && c.stateMachineArn == stateMachineArn
      ensures c.pollInterval == pollInterval && c.payload == payload
    {
      InvokeStepFunctionConfig(awsAccessKeyId, awsSecretKey, awsRegion, stateMachineArn, pollInterval, payload)
    }

    method FromPrototype(prototype: InvokeStepFunctionConfig) returns (self: Builder)
      modifies this
      ensures self == this && Build() == prototype
    {
      awsAccessKeyId := prototype.awsAccessKeyId;
      awsSecretKey := prototype.awsSecretKey;
      awsRegion := prototype.awsRegion;
      stateMachineArn := prototype.stateMachineArn;
      pollInterval := prototype.pollInterval;
      payload := prototype.payload;
      self := this;
    }

    method SetAwsAccessKeyId(v: Option<string>) returns (self: Builder)
      modifies this`awsAccessKeyId
      ensures self == this && awsAccessKeyId == v
    {
      awsAccessKeyId := v;
      self := this;
    }

    method SetAwsSecretKey(v: Option<string>) returns (self: Builder)
      modifies this`awsSecretKey
      ensures self == this && awsSecretKey == v
    {
      awsSecretKey := v;
      self := this;
    }

    method SetAwsRegion(v: Option<string>) returns (self: Builder)
      modifies this`awsRegion
      ensures self == this && awsRegion == v
    {
      awsRegion := v;
      self := this;
    }

    method SetStateMachineArn(v: Option<string>) returns (self: Builder)
      modifies this`stateMachineArn
      ensures self == this && stateMachineArn == v
    {
      stateMachineArn := v;
      self := this;
    }

    method SetPollInterval(v: Duration) returns (self: Builder)
      modifies this`pollInterval
      ensures self == this && pollInterval == v
    {
      pollInterval := v;
      self := this;
    }

    method SetPayload(v: Option<string>) returns (self: Builder)
      modifies this`payload
      ensures self == this && payload == v
    {
      payload := v;
      self := this;
    }
  }

  /** InvokeStepFunctionConfig.builder(prototype) */
  method BuilderOf(prototype: InvokeStepFunctionConfig) returns (b: Builder)
    ensures fresh(b) && b.Build() == prototype
  {
    b := new Builder();
    b := b.FromPrototype(prototype);
  }

  /** builder().build(): empty credentials and region, no ARN, no payload, a 30 second interval */
  method DefaultConfig() returns (c: InvokeStepFunctionConfig)
    ensures c == InvokeStepFunctionConfig(Some(""), Some(""), Some(""), None, OfSeconds(30), None)
  {
    var b := new Builder();
    c := b.Build();
  }

  /** builder(p).build() gives p back */
  method Rebuild(p: InvokeStepFunctionConfig) returns (c: InvokeStepFunctionConfig)
    ensures c == p
  {
    var b := BuilderOf(p);
    c := b.Build();
  }

  /** builder(p).stateMachineArn(arn).build() differs from p in the ARN alone */
  method RebuildWithStateMachineArn(p: InvokeStepFunctionConfig, arn: Option<string>) returns (c: InvokeStepFunctionConfig)
    ensures c == p.(stateMachineArn := arn)
  {
    var b := BuilderOf(p);
    b := b.SetStateMachineArn(arn);
    c := b.Build();
  }

  /** builder(p).pollInterval(d).build() differs from p in the poll interval alone */
  method RebuildWithPollInterval(p: InvokeStepFunctionConfig, d: Duration) returns (c: InvokeStepFunctionConfig)
    ensures c == p.(pollInterval := d)
  {
    var b := BuilderOf(p);
    b := b.SetPollInterval(d);
    c := b.Build();
  }
}

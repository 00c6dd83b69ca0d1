/**
 How a blocking singleflight leader publishes its decoded response and how a
 follower takes it over (client.go, parseData, parseSharedResult and
 applySharedResult).

 A Go value is its dynamic type and its content. The codec is a deterministic
 function: given the payload and the destination it returns the destination's
 new content, which may depend on the content already there.
 */
module SharedResult {
  import opened Prelude

  datatype GoValue = GoValue(typ: string, bits: Bytes)

  /** The `rsp interface{}` argument of a call. */
  datatype Rsp =
    | NilRsp
    | NotPointer(v: GoValue)
    | NilPointer(elem: string)
    | Pointer(pointee: GoValue)

  type Unmarshal = (Bytes, Rsp) -> Result<Bytes, string>

  /** What decoding into rsp leaves: the new rsp, an error, or a panic. */
  datatype Decode = Decoded(rsp: Rsp) | Failed(err: string) | Panicked

  /** What a leader stores in the shared call before it closes done. */
  datatype Outcome = Outcome(data: Bytes, result: Option<GoValue>, err: Option<string>)

  const NoOutcome := Outcome([], None, None)

  predicate IsText(typ: string) { typ == "string" || typ == "[]byte" }

  /** The value reflect.New gives for a type. */
  function Zero(typ: string): (v: GoValue) { GoValue(typ, []) }

  /** *string and *[]byte take the payload itself; everything else goes to the codec. */
  function ParseData(um: Unmarshal, data: Bytes, rsp: Rsp): (d: Decode) {
    match rsp
    case NilRsp => Decoded(NilRsp)
    case Pointer(v) =>
      if IsText(v.typ) then Decoded(Pointer(v.(bits := data)))
      else (match um(data, rsp)
            case Ok(bits) => Decoded(Pointer(v.(bits := bits)))
            case Err(e) => Failed(e))
    case NilPointer(t) =>
      if IsText(t) then Panicked
      else (match um(data, rsp) case Ok(_) => Decoded(rsp) case Err(e) => Failed(e))
    case NotPointer(_) =>
      (match um(data, rsp) case Ok(_) => Decoded(rsp) case Err(e) => Failed(e))
  }

  /** The leader decodes once into a fresh holder and copies it into its own rsp. */
  function ParseShared(um: Unmarshal, data: Bytes, rsp: Rsp): (r: (Option<GoValue>, Decode)) {
    if !rsp.Pointer? then (None, ParseData(um, data, rsp))
    else match ParseData(um, data, Pointer(Zero(rsp.pointee.typ)))
      case Decoded(Pointer(v)) => (Some(v), Decoded(Pointer(v)))
      case d => (None, d)
  }

  /** The outcome a leader publishes for the reply of its request. */
  function LeaderOutcome(um: Unmarshal, reply: Result<Bytes, string>, rsp: Rsp): (o: Outcome) {
    match reply
    case Err(e) => Outcome([], None, Some(e))
    case Ok(data) =>
      var (holder, d) := ParseShared(um, data, rsp);
      Outcome(data, holder, if d.Failed? then Some(d.err) else None)
  }

  /** A follower copies the holder if it has the type of its own rsp, else it decodes. */
  function ApplyShared(um: Unmarshal, result: Option<GoValue>, data: Bytes, rsp: Rsp): (d: Decode) {
    if rsp.NilRsp? then Decoded(NilRsp)
    else if result.Some? && rsp.Pointer? && rsp.pointee.typ == result.value.typ then
      Decoded(Pointer(result.value))
    else ParseData(um, data, rsp)
  }

  function FollowerResult(um: Unmarshal, o: Outcome, rsp: Rsp): (d: Decode) {
    if o.err.Some? then Failed(o.err.value) else ApplyShared(um, o.result, o.data, rsp)
  }

  ghost predicate ZeroValued(rsp: Rsp) {
    rsp.Pointer? ==> rsp.pointee == Zero(rsp.pointee.typ)
  }

  /**
   A follower ends with what decoding the leader's payload into its own rsp
   gives, whatever types the two rsp have, exactly when it does not copy the
   holder or its rsp holds a content the codec treats like the zero value. If
   the request or the leader's decoding failed, it gets that error.
   */
  lemma FollowerAgreesWithDecoding(um: Unmarshal, reply: Result<Bytes, string>, leader: Rsp, rsp: Rsp)
    ensures reply.Err? ==>
      FollowerResult(um, LeaderOutcome(um, reply, leader), rsp) == Failed(reply.error)
    ensures reply.Ok? && ParseShared(um, reply.value, leader).1.Failed? ==>
      FollowerResult(um, LeaderOutcome(um, reply, leader), rsp) == Failed(ParseShared(um, reply.value, leader).1.err)
    ensures reply.Ok? && ParseShared(um, reply.value, leader).1.Decoded? ==>
      (FollowerResult(um, LeaderOutcome(um, reply, leader), rsp) == ParseData(um, reply.value, rsp)
       <==> (leader.Pointer? && rsp.Pointer? && leader.pointee.typ == rsp.pointee.typ ==>
               ParseData(um, reply.value, rsp) == ParseData(um, reply.value, Pointer(Zero(rsp.pointee.typ)))))
    ensures reply.Ok? && ParseShared(um, reply.value, leader).1.Decoded? && ZeroValued(rsp) ==>
      FollowerResult(um, LeaderOutcome(um, reply, leader), rsp) == ParseData(um, reply.value, rsp)
  {
    if reply.Ok? {
      assert rsp.Pointer? ==> rsp == Pointer(rsp.pointee);
      if leader.Pointer? {
        var z := Pointer(Zero(leader.pointee.typ));
        assert ParseData(um, reply.value, z).Decoded? ==>
          ParseData(um, reply.value, z).rsp.Pointer?
          && ParseData(um, reply.value, z).rsp.pointee.typ == leader.pointee.typ;
      }
    }
  }

  /** The follower copies the leader's holder. */
  predicate Copies(leader: Rsp, rsp: Rsp) {
    leader.Pointer? && rsp.Pointer? && leader.pointee.typ == rsp.pointee.typ
  }

  ghost predicate Agrees(um: Unmarshal, data: Bytes, leader: Rsp, rsp: Rsp) {
    ParseShared(um, data, leader).1.Decoded? ==>
      FollowerResult(um, LeaderOutcome(um, Ok(data), leader), rsp) == ParseData(um, data, rsp)
  }

  /** For every codec: exactly when it does not copy, or the type takes the payload as it is, or its rsp is zero. */
  lemma AgreesForEveryCodecIff(data: Bytes, leader: Rsp, rsp: Rsp)
    ensures (forall um: Unmarshal :: Agrees(um, data, leader, rsp)) <==>
            !Copies(leader, rsp) || IsText(rsp.pointee.typ) || ZeroValued(rsp)
  {
    if Copies(leader, rsp) && !IsText(rsp.pointee.typ) && !ZeroValued(rsp) {
      var um: Unmarshal := (_, into) => if into == rsp then Ok([1]) else Ok([]);
      assert !Agrees(um, data, leader, rsp) by {
        assert rsp != Pointer(Zero(rsp.pointee.typ));
        assert ParseData(um, data, rsp) == Decoded(Pointer(GoValue(rsp.pointee.typ, [1])));
        assert ParseShared(um, data, leader).0 == Some(Zero(rsp.pointee.typ));
      }
    } else {
      forall um: Unmarshal ensures Agrees(um, data, leader, rsp) {
        FollowerAgreesWithDecoding(um, Ok(data), leader, rsp);
      }
    }
  }

  /** The leader itself ends as if it had decoded straight into a zero-valued rsp. */
  lemma LeaderAgreesWithDecoding(um: Unmarshal, data: Bytes, rsp: Rsp)
    requires ZeroValued(rsp)
    ensures ParseShared(um, data, rsp).1 == ParseData(um, data, rsp)
  {
    if rsp.Pointer? {
      assert rsp == Pointer(Zero(rsp.pointee.typ));
    }
  }

  // ------------------------------------------- what callers find, from the reply alone

  /** What the codec leaves in a target of type typ, given what it says of the content. */
  function Filled(typ: string, r: Result<Bytes, string>): (d: Decode) {
    match r
    case Ok(bits) => Decoded(Pointer(GoValue(typ, bits)))
    case Err(e) => Failed(e)
  }

  /** The leader's rsp: the payload for a text target of any old content, else what the codec makes of a zero value. */
  lemma LeaderFindsTheReply(um: Unmarshal, data: Bytes, typ: string, was: Bytes)
    ensures typ in {"string", "[]byte"} ==>
              ParseShared(um, data, Pointer(GoValue(typ, was))).1 == Decoded(Pointer(GoValue(typ, data)))
    ensures typ !in {"string", "[]byte"} ==>
              ParseShared(um, data, Pointer(GoValue(typ, was))).1 == Filled(typ, um(data, Pointer(GoValue(typ, []))))
  {
  }

  /** The leader's decoding fails with err: only a codec that refuses its target can do that. */
  predicate LeaderFails(um: Unmarshal, data: Bytes, leader: Rsp, err: string) {
    match leader
    case NilRsp => false
    case Pointer(v) => v.typ !in {"string", "[]byte"} && um(data, Pointer(GoValue(v.typ, []))) == Err(err)
    case NilPointer(t) => t !in {"string", "[]byte"} && um(data, leader) == Err(err)
    case NotPointer(_) => um(data, leader) == Err(err)
  }

  /**
   What a follower finds in its rsp, whatever the leader's: the payload in a text
   target of any old content; in any other target what the codec says of it, or
   of a zero one if the follower copies; and the leader's error, if it had one.
   */
  lemma FollowerFindsTheReply(um: Unmarshal, data: Bytes, leader: Rsp, typ: string, was: Bytes)
    ensures var rsp := Pointer(GoValue(typ, was));
            var got := FollowerResult(um, LeaderOutcome(um, Ok(data), leader), rsp);
            && (forall e :: LeaderFails(um, data, leader, e) ==> got == Failed(e))
            && ((forall e :: !LeaderFails(um, data, leader, e)) ==>
                  got == if typ in {"string", "[]byte"} then Decoded(Pointer(GoValue(typ, data)))
                         else Filled(typ, um(data, if Copies(leader, rsp) then Pointer(GoValue(typ, [])) else rsp)))
  {
    var out := LeaderOutcome(um, Ok(data), leader);
    if leader.Pointer? {
      LeaderFindsTheReply(um, data, leader.pointee.typ, leader.pointee.bits);
      assert leader == Pointer(GoValue(leader.pointee.typ, leader.pointee.bits));
    }
    if e :| LeaderFails(um, data, leader, e) {
      assert out.err == Some(e);
    } else if out.err.Some? {
      assert LeaderFails(um, data, leader, out.err.value);
    }
  }

  /** A failed request is every caller's error. A target that takes no result is left alone, or the codec's error. */
  lemma OtherTargets(um: Unmarshal, e: string, data: Bytes, leader: Rsp, rsp: Rsp)
    ensures FollowerResult(um, LeaderOutcome(um, Err(e), leader), rsp) == Failed(e)
    ensures (forall x :: !LeaderFails(um, data, leader, x)) && rsp.NilRsp? ==>
              FollowerResult(um, LeaderOutcome(um, Ok(data), leader), rsp) == Decoded(rsp)
    ensures (forall x :: !LeaderFails(um, data, leader, x)) && rsp.NotPointer? ==>
              FollowerResult(um, LeaderOutcome(um, Ok(data), leader), rsp) ==
              if um(data, rsp).Ok? then Decoded(rsp) else Failed(um(data, rsp).error)
  {
    FollowerFindsTheReply(um, data, leader, "string", []);
  }
}

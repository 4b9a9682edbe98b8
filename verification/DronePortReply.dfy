/** Reading DronePort replies: proxies on the way may wrap a reply in layers, and
    the body that carries the verdict has to be found first. */
module DronePortReply {
  import opened Common

  const DEPTH := 6

  /** The body itself carries a verdict: an error, or one of the marker keys. */
  predicate Marked(b: Body) {
    NonNull(b, "error") || "approved" in b || "port_id" in b || "battery" in b || "drones" in b
  }

  /** The payload inside carries one; here a null marker does not count. */
  predicate PayloadMarked(b: Body) {
    ObjField(b, "payload").Some? &&
    var p := ObjField(b, "payload").value;
    NonNull(p, "error") || NonNull(p, "approved") || NonNull(p, "port_id") || NonNull(p, "battery") || NonNull(p, "drones")
  }

  /** The next layer inwards: a target_response, bare or inside the payload. */
  function Inner(b: Body): Option<Body> {
    if ObjField(b, "target_response").Some? then ObjField(b, "target_response")
    else match ObjField(b, "payload")
      case None => None
      case Some(p) => ObjField(p, "target_response")
  }

  /** The body found by looking at most `depth` layers deep. */
  function Unwrap(b: Body, depth: nat): Body
    decreases depth
  {
    if depth == 0 || Marked(b) then b
    else if PayloadMarked(b) then ObjField(b, "payload").value
    else match Inner(b)
      case None => b
      case Some(inner) => Unwrap(inner, depth - 1)
  }

  /** The unwrapping loop. */
  method UnwrapDroneportBody(resp: Body) returns (r: Body)
    ensures r == Unwrap(resp, DEPTH)
  {
    var cur := resp;
    var i := 0;
    while i < DEPTH
      invariant 0 <= i <= DEPTH
      invariant Unwrap(resp, DEPTH) == Unwrap(cur, DEPTH - i)
    {
      if Marked(cur) {
        return cur;
      }
      if PayloadMarked(cur) {
        return ObjField(cur, "payload").value;
      }
      var inner := Inner(cur);
      if inner.None? {
        return cur;
      }
      cur := inner.value;
      i := i + 1;
    }
    return cur;
  }

  /** An approval flag counts only without an error. */
  predicate Approved(b: Body) {
    !NonNull(b, "error") && "approved" in b && b["approved"] == Bool(true)
  }

  predicate LandingVerdict(b: Body) {
    !NonNull(b, "error") && (Approved(b) || "port_id" in b)
  }

  predicate TakeoffVerdict(b: Body) {
    !NonNull(b, "error") && "battery" in b && (Approved(b) || "port_id" in b)
  }

  /** A reply may come without a body. */
  predicate LandingOk(resp: Option<Body>) {
    resp.Some? && LandingVerdict(Unwrap(resp.value, DEPTH))
  }

  predicate TakeoffOk(resp: Option<Body>) {
    resp.Some? && TakeoffVerdict(Unwrap(resp.value, DEPTH))
  }

  /** What unwrapping looks for, by key: a body with an error or a verdict is the one; then
      a payload with something under such a key; then what is wrapped as
      target_response, bare before inside the payload; and nothing wrapped ends it. */
  lemma UnwrapMeans(b: Body, depth: nat)
    requires depth > 0
    ensures ("error" in b && !b["error"].Null?) || "approved" in b || "port_id" in b || "battery" in b || "drones" in b ==>
      Unwrap(b, depth) == b
    ensures "error" !in b && "approved" !in b && "port_id" !in b && "battery" !in b && "drones" !in b ==>
      && ("payload" in b && b["payload"].Obj? && HoldsVerdict(b["payload"].fields) ==> Unwrap(b, depth) == b["payload"].fields)
      && (!("payload" in b && b["payload"].Obj? && HoldsVerdict(b["payload"].fields)) ==>
            && ("target_response" in b && b["target_response"].Obj? ==>
                  Unwrap(b, depth) == Unwrap(b["target_response"].fields, depth - 1))
            && (!("target_response" in b && b["target_response"].Obj?) && "payload" in b && b["payload"].Obj? ==>
                  var p := b["payload"].fields;
                  Unwrap(b, depth) ==
                    if "target_response" in p && p["target_response"].Obj? then Unwrap(p["target_response"].fields, depth - 1) else b)
            && (!("target_response" in b && b["target_response"].Obj?) && !("payload" in b && b["payload"].Obj?) ==>
                  Unwrap(b, depth) == b))
  {
  }

  predicate HoldsVerdict(p: Body) {
    || ("error" in p && !p["error"].Null?) || ("approved" in p && !p["approved"].Null?)
    || ("port_id" in p && !p["port_id"].Null?) || ("battery" in p && !p["battery"].Null?)
    || ("drones" in p && !p["drones"].Null?)
  }

  // ---- wrapping changes nothing -------------------------------------------------------

  /** `outer` wraps `inner` and says nothing itself. */
  predicate Layer(outer: Body, inner: Body) {
    !Marked(outer) && !PayloadMarked(outer) && Inner(outer) == Some(inner)
  }

  /** Each body of the list wraps the next; the last one is the innermost. */
  ghost predicate Nested(bodies: seq<Body>) {
    bodies != [] && forall i :: 0 <= i < |bodies| - 1 ==> Layer(bodies[i], bodies[i + 1])
  }

  /** A body at which unwrapping stops: it carries a verdict, or wraps nothing. */
  predicate Settled(b: Body) {
    Marked(b) || PayloadMarked(b) || Inner(b).None?
  }

  lemma {:induction false} UnwrapSkipsLayers(bodies: seq<Body>, depth: nat)
    requires Nested(bodies)
    ensures |bodies| - 1 <= depth ==> Unwrap(bodies[0], depth) == Unwrap(bodies[|bodies| - 1], depth - (|bodies| - 1))
    ensures |bodies| - 1 > depth ==> Unwrap(bodies[0], depth) == bodies[depth]
    decreases depth
  {
    if |bodies| > 1 && depth > 0 {
      assert Layer(bodies[0], bodies[1]);
      var rest := bodies[1..];
      forall i | 0 <= i < |rest| - 1
        ensures Layer(rest[i], rest[i + 1])
      {
        assert Layer(bodies[i + 1], bodies[i + 2]);
      }
      UnwrapSkipsLayers(rest, depth - 1);
    }
  }

  /** Up to five silent layers are invisible: same body, same verdicts. Six leave
      the innermost body unexamined; more than six hide it, and nothing is approved. */
  lemma WrappingIsInvisible(bodies: seq<Body>)
    requires Nested(bodies) && Settled(bodies[|bodies| - 1])
    ensures var n, b := |bodies| - 1, bodies[|bodies| - 1];
      && (n <= 5 ==> Unwrap(bodies[0], DEPTH) == Unwrap(b, DEPTH)
                     && LandingOk(Some(bodies[0])) == LandingOk(Some(b))
                     && TakeoffOk(Some(bodies[0])) == TakeoffOk(Some(b)))
      && (n == 6 ==> Unwrap(bodies[0], DEPTH) == b)
      && (n > 6 ==> !LandingOk(Some(bodies[0])) && !TakeoffOk(Some(bodies[0])))
  {
    UnwrapSkipsLayers(bodies, DEPTH);
    if |bodies| - 1 > 6 {
      assert Layer(bodies[6], bodies[7]);
    }
  }

  /** A body that carries an error is never approved, however deep it is wrapped. */
  lemma ErrorIsNeverApproved(bodies: seq<Body>)
    requires Nested(bodies) && NonNull(bodies[|bodies| - 1], "error")
    ensures !LandingOk(Some(bodies[0])) && !TakeoffOk(Some(bodies[0]))
  {
    WrappingIsInvisible(bodies);
  }
}

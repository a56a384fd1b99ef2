/** req_id is not the highest id admitted so far: a run in which a GET lowers it. */
module ServerReqId {
  import opened ServerModel
  import opened ServerRuns
  import opened ServerTransfers

  /** A GET with a smaller id, alone, lowers it to its own. */
  lemma GetLowers(s: Server, t: nat, u: Uri, id: int) returns (acts: seq<Action>, s': Server)
    requires Alone(s, t, Idle) && id < s.reqId
    ensures NoFail(acts)
    ensures Leads(s, acts, s') && s'.reqId == id
  {
    var come, s1 := ComeToCheck(s, t, u, id);
    var admit, s2, k := AdmitGet(s1, t, u, id);
    acts, s' := come + admit, s2;
    Chain(s, come, s1, admit, s2);
  }

  /** From every start, for every missing file u and all ids hi > 0 and lo < hi, a run without any
      failure takes req_id to hi, by a PUT of u, and then down to lo, by a GET. */
  lemma ReqIdFalls(s: Server, fs0: map<Uri, Node>, u: Uri, hi: int, lo: int)
    returns (acts: seq<Action>, n: nat)
    requires Start(s, fs0) && 0 < |s.pc| && u !in fs0 && 0 < hi && lo < hi
    ensures n <= |acts| && NoFail(acts) && Runs(s, acts) && Runs(s, acts[..n])
    ensures After(s, acts[..n]).reqId == hi && After(s, acts).reqId == lo
  {
    var put, s1 := PutWhole(s, 0, u, hi, []);
    var get, s2 := GetLowers(s1, 0, u, lo);
    Chain(s, put, s1, get, s2);
    acts, n := put + get, |put|;
    assert acts[..n] == put;
  }
}

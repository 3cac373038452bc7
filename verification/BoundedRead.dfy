/** The read loop of check_ready in third-party-backend/app.py. */
module BoundedRead {
  import opened Wrappers

  type Byte = n: int | 0 <= n < 256

  const LIMIT := 4096

  /** How many bytes the k-th recv returns, of those left and at most as many as asked for; only
      an exhausted stream returns none. */
  function Chunk(sizes: nat -> nat, k: nat, left: nat, asked: nat): (n: nat)
    requires asked > 0
    ensures n <= left && n <= asked && (n == 0 <==> left == 0)
  {
    var bound := if left < asked then left else asked;
    if sizes(k) == 0 && bound > 0 then 1 else if sizes(k) < bound then sizes(k) else bound
  }

  /** However the peer's bytes are chopped up, they are returned exactly when there are at most
      4096 of them, and never more than 4097 are taken. */
  method ReadStatus(stream: seq<Byte>, sizes: nat -> nat) returns (r: Result<seq<Byte>>, taken: nat)
    ensures r == if |stream| <= LIMIT then Ok(stream) else Err
    ensures taken <= LIMIT + 1 && taken <= |stream|
  {
    var chunks: seq<Byte>, k := [], 0;
    taken := 0;
    while |chunks| <= LIMIT
      invariant taken == |chunks| <= |stream| && |chunks| <= LIMIT + 1 && chunks == stream[..taken]
      decreases |stream| - taken
    {
      var asked := LIMIT + 1 - |chunks|;
      var n := Chunk(sizes, k, |stream| - taken, asked);
      if n == 0 {
        break;
      }
      chunks := chunks + stream[taken..taken + n];
      taken := taken + n;
      k := k + 1;
    }
    if |chunks| > LIMIT {
      return Err, taken;
    }
    assert stream[..|stream|] == stream;
    return Ok(chunks), taken;
  }
}

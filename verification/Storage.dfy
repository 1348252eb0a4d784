/**
 * The storage adapter (src/backup/backup.storage.ts): the capped streaming read, the checks on a HEAD
 * answer, and the printed object keys (src/backup/backup.repository.ts:54-60).
 */
module Storage {
  import opened Wrappers
  import opened Tables
  import opened Protocol

  // ----- the capped streaming read -----

  /** The first n chunks, concatenated. */
  function Joined(chunks: seq<Bytes>, n: nat): Bytes
    requires n <= |chunks|
  {
    if n == 0 then [] else Joined(chunks, n - 1) + chunks[n - 1]
  }

  lemma {:induction false} JoinedGrows(chunks: seq<Bytes>, m: nat, n: nat)
    requires m <= n <= |chunks|
    ensures |Joined(chunks, m)| <= |Joined(chunks, n)|
  {
    if m < n { JoinedGrows(chunks, m, n - 1); }
  }

  /** Where chunk k begins: the lengths of the chunks before it, added up. */
  function Offset(chunks: seq<Bytes>, k: nat): nat
    requires k <= |chunks|
  {
    if k == 0 then 0 else Offset(chunks, k - 1) + |chunks[k - 1]|
  }

  /** Byte j of chunk k. */
  predicate Holds(body: Bytes, chunks: seq<Bytes>, k: nat, j: nat)
    requires k < |chunks| && j < |chunks[k]|
  {
    Offset(chunks, k) + j < |body| && body[Offset(chunks, k) + j] == chunks[k][j]
  }

  /** The bytes of the chunks, one chunk after the other, and nothing else. */
  ghost predicate InOrder(body: Bytes, chunks: seq<Bytes>, n: nat)
    requires n <= |chunks|
  {
    && |body| == Offset(chunks, n)
    && forall k: nat, j: nat | k < n && j < |chunks[k]| :: Holds(body, chunks, k, j)
  }

  lemma {:induction false} OffsetGrows(chunks: seq<Bytes>, k: nat, n: nat)
    requires k < n <= |chunks|
    ensures Offset(chunks, k) + |chunks[k]| <= Offset(chunks, n)
    decreases n
  {
    if k < n - 1 { OffsetGrows(chunks, k, n - 1); }
  }

  lemma {:induction false} JoinedInOrder(chunks: seq<Bytes>, n: nat)
    requires n <= |chunks|
    ensures InOrder(Joined(chunks, n), chunks, n)
  {
    if n > 0 {
      JoinedInOrder(chunks, n - 1);
      forall k: nat, j: nat | k < n && j < |chunks[k]| ensures Holds(Joined(chunks, n), chunks, k, j) {
        if k < n - 1 {
          OffsetGrows(chunks, k, n - 1);
          assert Holds(Joined(chunks, n - 1), chunks, k, j);
        }
      }
    }
  }

  /**
   * However the body is cut into chunks, the read returns the whole body if it has at most `maxBytes`
   * bytes and fails otherwise; it stops at the very first chunk that goes beyond the limit, and `peak`,
   * the most it ever kept, are the bytes before that chunk: at most `maxBytes`.
   */
  method ReadBody(chunks: seq<Bytes>, maxBytes: nat)
    returns (result: Result<Bytes, Code>, peak: nat, taken: nat)
    ensures result ==
      if |Joined(chunks, |chunks|)| <= maxBytes then Ok(Joined(chunks, |chunks|)) else Err(ObjectTooLarge)
    ensures result.Ok? ==> InOrder(result.value, chunks, |chunks|)
    ensures result.Ok? <==> Offset(chunks, |chunks|) <= maxBytes
    ensures peak <= maxBytes
    ensures taken <= |chunks|
    ensures result.Ok? ==> taken == |chunks|
    ensures result.Err? ==> taken > 0 && |Joined(chunks, taken - 1)| <= maxBytes < |Joined(chunks, taken)|
    ensures peak == |Joined(chunks, if result.Ok? then |chunks| else taken - 1)|
  {
    var kept: seq<Bytes> := [];
    var size := 0;
    peak, taken := 0, 0;
    while taken < |chunks|
      invariant taken <= |chunks|
      invariant kept == chunks[..taken]
      invariant size == |Joined(chunks, taken)| <= maxBytes
      invariant peak == size
    {
      var item := chunks[taken];
      taken := taken + 1;
      size := size + |item|;
      if size > maxBytes {
        JoinedGrows(chunks, taken, |chunks|);
        JoinedInOrder(chunks, |chunks|);
        return Err(ObjectTooLarge), peak, taken;
      }
      kept := kept + [item];
      peak := if size > peak then size else peak;
    }
    assert kept == chunks;
    JoinedInOrder(chunks, |chunks|);
    var body := Concat(kept);
    result := Ok(body);
  }

  /** `Buffer.concat`. */
  method Concat(chunks: seq<Bytes>) returns (body: Bytes)
    ensures body == Joined(chunks, |chunks|) && InOrder(body, chunks, |chunks|)
  {
    JoinedInOrder(chunks, |chunks|);
    body := [];
    var i := 0;
    while i < |chunks|
      invariant i <= |chunks|
      invariant body == Joined(chunks, i)
    {
      body := body + chunks[i];
      i := i + 1;
    }
  }

  // ----- HEAD -----

  /** `Number(header)`, of which only safe integers are used. */
  datatype Numeric = Integer(n: int) | NotSafe

  /** The checks of `headSource` on the three headers. */
  function SourceIdentity(etag: Option<string>, modified: Option<string>, length: Option<Numeric>, maxBytes: nat)
    : Result<Identity, Code>
  {
    if etag.None? || etag.value == "" || modified.None? || modified.value == "" || length.None? ||
       length.value.NotSafe? || length.value.n < 0 then Err(InvalidIdentity)
    else if length.value.n > maxBytes then Err(ObjectTooLarge)
    else Ok(Identity(etag.value, modified.value, length.value.n))
  }

  predicate AnswerIs(etag: Option<string>, modified: Option<string>, length: Option<Numeric>, i: Identity) {
    ValidIdentity(i) && etag == Some(i.etag) && modified == Some(i.lastModified) && length == Some(Integer(i.size))
  }

  /** What the protocol takes for granted of a HEAD answer, and the cap; neither failure is otherwise raised. */
  lemma IdentityIsValid(etag: Option<string>, modified: Option<string>, length: Option<Numeric>, maxBytes: nat)
    ensures var r := SourceIdentity(etag, modified, length, maxBytes);
      && (r.Ok? ==> ValidIdentity(r.value) && r.value.size <= maxBytes)
      && (r.Err? ==> Ambient(r.error))
      && (r.Ok? <==> exists i: Identity :: AnswerIs(etag, modified, length, i) && i.size <= maxBytes)
  {
    var r := SourceIdentity(etag, modified, length, maxBytes);
    if r.Ok? {
      assert AnswerIs(etag, modified, length, r.value);
    }
  }

  // ----- printed keys -----

  predicate SlashFree(s: string) {
    forall i | 0 <= i < |s| :: s[i] != '/'
  }

  function PrintKey(rid: string, capture: string, manifest: bool): string {
    if manifest then "manifests/v1/" + rid + "/" + capture + ".json"
    else "objects/v1/" + rid + "/" + capture
  }

  /** Cutting at the last slash. */
  lemma LastSlash(a: string, b: string, c: string, d: string)
    requires SlashFree(b) && SlashFree(d) && a + "/" + b == c + "/" + d
    ensures a == c && b == d
  {
    var s, t := a + "/" + b, c + "/" + d;
    if |a| < |c| {
      EarlySlash(a, b, c, d);
    } else if |c| < |a| {
      EarlySlash(c, d, a, b);
    } else {
      assert a == s[..|a|] && c == t[..|c|];
      assert b == s[|a| + 1..] && d == t[|c| + 1..];
    }
  }

  lemma EarlySlash(a: string, b: string, c: string, d: string)
    requires a + "/" + b == c + "/" + d && |a| < |c|
    ensures !SlashFree(b)
  {
    assert (c + "/" + d)[|c|] == '/';
    assert b[|c| - |a| - 1] == (a + "/" + b)[|c|];
  }

  /**
   * The printed keys are as distinct as the pairs they are made of: two captures never share a key,
   * and an object key is never a manifest key.  Capture ids contain no slash.
   */
  lemma KeysAreDistinct(rid: string, capture: string, manifest: bool, rid2: string, capture2: string, manifest2: bool)
    requires SlashFree(capture) && SlashFree(capture2)
    requires PrintKey(rid, capture, manifest) == PrintKey(rid2, capture2, manifest2)
    ensures rid == rid2 && capture == capture2 && manifest == manifest2
  {
    var k, l := PrintKey(rid, capture, manifest), PrintKey(rid2, capture2, manifest2);
    assert k[0] == (if manifest then 'm' else 'o') && l[0] == (if manifest2 then 'm' else 'o');
    if manifest {
      var x, y := rid + "/" + (capture + ".json"), rid2 + "/" + (capture2 + ".json");
      assert k == "manifests/v1/" + x && l == "manifests/v1/" + y;
      assert x == k[13..] && y == l[13..];
      LastSlash(rid, capture + ".json", rid2, capture2 + ".json");
      assert capture == (capture + ".json")[..|capture|] && capture2 == (capture2 + ".json")[..|capture2|];
    } else {
      var x, y := rid + "/" + capture, rid2 + "/" + capture2;
      assert k == "objects/v1/" + x && l == "objects/v1/" + y;
      assert x == k[11..] && y == l[11..];
      LastSlash(rid, capture, rid2, capture2);
    }
  }
}

/** The Redis keys of the digest engine, and the parsing that restart recovery does on them. */
module DigestKeys {
  import opened Options

  /** One subscriber's buffer for one event type. */
  datatype Pair = Pair(subscriberId: string, eventType: string)

  const PREFIX := "emito:digest:"

  /** The field of the checkpoint hash and the key of the in-memory map. */
  function MapKey(p: Pair): string {
    p.subscriberId + ":" + p.eventType
  }

  function DigestKey(p: Pair): string {
    PREFIX + MapKey(p)
  }

  function FlushLockKey(p: Pair): string {
    PREFIX + "flush_lock:" + MapKey(p)
  }

  function CheckpointKey(instanceId: Option<string>): string {
    PREFIX + "_checkpoint" + if instanceId.Some? && instanceId.value != "" then ":" + instanceId.value else ""
  }

  /** String.prototype.indexOf for one character. */
  function IndexOf(s: string, c: char): (r: int)
    ensures r == -1 ==> c !in s
    ensures r != -1 ==> 0 <= r < |s| && s[r] == c && c !in s[..r]
  {
    if s == "" then -1
    else if s[0] == c then 0
    else
      var r := IndexOf(s[1..], c);
      if r == -1 then -1 else
        assert s[..r + 1] == [s[0]] + s[1..][..r];
        r + 1
  }

  predicate OccursAt(s: string, part: string, i: nat) {
    i + |part| <= |s| && s[i..i + |part|] == part
  }

  /** String.prototype.includes */
  predicate Includes(s: string, part: string) {
    exists i | 0 <= i <= |s| :: OccursAt(s, part, i)
  }

  /** Splits at the first colon. */
  function ParseMapKey(field: string): Option<Pair> {
    var sep := IndexOf(field, ':');
    if sep == -1 then None else Some(Pair(field[..sep], field[sep + 1..]))
  }

  /** key.slice(prefix.length) */
  function WithoutPrefix(key: string): string {
    if |key| < |PREFIX| then "" else key[|PREFIX|..]
  }

  /** What recovery makes of a key that the SCAN returned. */
  function ParseScanned(key: string): Option<Pair> {
    if Includes(key, "flush_lock:") || Includes(key, "_checkpoint") then None
    else ParseMapKey(WithoutPrefix(key))
  }

  predicate Scannable(p: Pair) {
    !Includes(DigestKey(p), "flush_lock:") && !Includes(DigestKey(p), "_checkpoint")
  }

  /** Parsing inverts the field format exactly for subscriber ids without a colon. */
  lemma ParseInvertsMapKey(p: Pair)
    ensures ParseMapKey(MapKey(p)) == Some(p) <==> ':' !in p.subscriberId
  {
    var field := MapKey(p);
    var n := |p.subscriberId|;
    var sep := IndexOf(field, ':');
    assert field[n] == ':';
    assert field[..n] == p.subscriberId && field[n + 1..] == p.eventType;
    OccurrenceBounds(field, ':', n, sep);
    if sep < n {
      assert field[sep] == p.subscriberId[sep];
      assert |field[..sep]| == sep;
    }
  }

  /** No occurrence of c can lie before the first one. */
  lemma OccurrenceBounds(s: string, c: char, i: nat, first: int)
    requires i < |s| && s[i] == c && -1 <= first <= |s|
    ensures first != -1 && c !in s[..first] ==> first <= i
  {
    if i < first {
      assert s[..first][i] == c;
    }
  }

  /** Whatever pair the parser finds, it denotes the same Redis key, so the buffer stays reachable. */
  lemma ParseKeepsKey(field: string)
    ensures ParseMapKey(field).None? <==> ':' !in field
    ensures ParseMapKey(field).Some? ==> MapKey(ParseMapKey(field).value) == field
  {
    var sep := IndexOf(field, ':');
    if sep != -1 {
      assert field == field[..sep] + ":" + field[sep + 1..];
    }
  }

  /** Recovery rebuilds the very pair of a scanned buffer exactly when its key is not mistaken for another kind. */
  lemma ParseInvertsDigestKey(p: Pair)
    ensures ParseScanned(DigestKey(p)) == Some(p) <==> Scannable(p) && ':' !in p.subscriberId
  {
    assert WithoutPrefix(DigestKey(p)) == MapKey(p);
    ParseInvertsMapKey(p);
  }

  /** Flush locks and checkpoints share the prefix and are never taken for buffers. */
  lemma OtherKeysAreSkipped(p: Pair, instanceId: Option<string>)
    ensures ParseScanned(FlushLockKey(p)) == None
    ensures ParseScanned(CheckpointKey(instanceId)) == None
  {
    var lock := FlushLockKey(p);
    assert OccursAt(lock, "flush_lock:", |PREFIX|);
    var checkpoint := CheckpointKey(instanceId);
    assert OccursAt(checkpoint, "_checkpoint", |PREFIX|);
  }

  lemma IncludesInside(before: string, s: string, after: string, part: string)
    requires Includes(s, part)
    ensures Includes(before + s + after, part)
  {
    var i :| 0 <= i <= |s| && OccursAt(s, part, i);
    var all := before + s + after;
    assert all[|before| + i..|before| + i + |part|] == s[i..i + |part|];
    assert OccursAt(all, part, |before| + i);
  }

  /** A buffer is passed over by the SCAN exactly when its key is mistaken for another kind. */
  lemma SkippedExact(p: Pair)
    ensures ParseScanned(DigestKey(p)) == None <==> !Scannable(p)
  {
    assert WithoutPrefix(DigestKey(p)) == MapKey(p);
    assert MapKey(p)[|p.subscriberId|] == ':';
    ParseKeepsKey(MapKey(p));
  }

  /** Every buffer whose subscriber id or event type mentions a checkpoint or a flush lock is passed over. */
  lemma CheckpointEventIsSkipped(p: Pair, part: string)
    requires part in {"_checkpoint", "flush_lock:"} && (Includes(p.subscriberId, part) || Includes(p.eventType, part))
    ensures ParseScanned(DigestKey(p)) == None
  {
    var key := DigestKey(p);
    if Includes(p.subscriberId, part) {
      IncludesInside(PREFIX, p.subscriberId, ":" + p.eventType, part);
      assert key == PREFIX + p.subscriberId + (":" + p.eventType);
    } else {
      IncludesInside(PREFIX + p.subscriberId + ":", p.eventType, "", part);
      assert key == PREFIX + p.subscriberId + ":" + p.eventType + "";
    }
  }
}

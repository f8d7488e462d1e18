/** The identity of an inbound event and the text its idempotency key hashes
    (src/orchestrator/domain/inbound_events.py). The hash is taken to be injective,
    so two keys are equal exactly when these texts are. */
module InboundEvents {

  const SEPARATOR: char := 31 as char

  function Key(source: string, externalId: string): string {
    source + [SEPARATOR] + externalId
  }

  /** With separator-free sources the key determines the identity. */
  lemma KeyInjective(source: string, externalId: string, source': string, externalId': string)
    requires SEPARATOR !in source && SEPARATOR !in source'
    ensures Key(source, externalId) == Key(source', externalId')
       <==> source == source' && externalId == externalId'
  {
    var k, k' := Key(source, externalId), Key(source', externalId');
    assert k[|source|] == SEPARATOR && k'[|source'|] == SEPARATOR;
    if k == k' {
      assert |source| == |source'|;
      assert source == k[..|source|] == source';
      assert externalId == k[|source| + 1..] == externalId';
    }
  }

  /** Exactly when another identity has the same key: when the separator occurs in either half. */
  lemma KeyAmbiguousIff(source: string, externalId: string)
    ensures (exists source', externalId' ::
               (source', externalId') != (source, externalId) && Key(source', externalId') == Key(source, externalId))
       <==> SEPARATOR in source || SEPARATOR in externalId
  {
    var k := Key(source, externalId);
    if i :| 0 <= i < |source| && source[i] == SEPARATOR {
      MovedSplit(source, externalId, i);
    } else if i :| 0 <= i < |externalId| && externalId[i] == SEPARATOR {
      var j := |source| + 1 + i;
      assert k[j] == SEPARATOR;
      MovedSplit(source, externalId, j);
    } else {
      forall source', externalId' | Key(source', externalId') == k
        ensures source' == source && externalId' == externalId
      {
        assert Key(source', externalId')[|source'|] == SEPARATOR;
        assert forall i :: 0 <= i < |k| && k[i] == SEPARATOR ==> i == |source|;
        assert |source'| == |source|;
        assert source == k[..|source|] == source';
        assert externalId == k[|source| + 1..] == externalId';
      }
    }
  }

  /** Any separator of the key other than the inserted one gives a second reading of it. */
  lemma MovedSplit(source: string, externalId: string, j: nat)
    requires j < |Key(source, externalId)| && Key(source, externalId)[j] == SEPARATOR && j != |source|
    ensures exists source', externalId' ::
      (source', externalId') != (source, externalId) && Key(source', externalId') == Key(source, externalId)
  {
    var k := Key(source, externalId);
    assert k == k[..j] + [k[j]] + k[j + 1..];
    assert Key(k[..j], k[j + 1..]) == k;
    assert |k[..j]| != |source|;
    assert (k[..j], k[j + 1..]) != (source, externalId);
  }
}

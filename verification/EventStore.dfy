/** The append-only, hash-linked event log of each action (src/event-store.js). */
module EventStore {
  import opened RailStates
  import opened Artifacts

  datatype ChainError = Tampered | Untrusted

  datatype ChainSummary = ChainSummary(eventCount: nat, chainHead: Option<Digest>)

  function Head(es: seq<Event>): Option<Digest> {
    if es == [] then None else Some(es[|es| - 1].hash)
  }

  /** The checks of one loop turn of verifyEventChain, in the order they are made. */
  function LinkError(c: Crypto, keys: map<KeyId, PublicKey>, es: seq<Event>, i: nat): Option<ChainError>
    requires i < |es|
  {
    var body := es[i].signed.body;
    if body.actionId != es[0].ActionId() then Some(Tampered)
    else if body.sequence != i || body.previousHash != Head(es[..i]) then Some(Tampered)
    else match CheckSignature(c, EventB(body), es[i].signed.sig, keys)
      case UntrustedKey => Some(Untrusted)
      case SignatureInvalid => Some(Tampered)
      case SignatureGood => if es[i].hash != DigestSignedEvent(c, es[i].signed) then Some(Tampered) else None
  }

  /** An event list that verifies: every link is good. */
  ghost predicate ChainValid(c: Crypto, keys: map<KeyId, PublicKey>, es: seq<Event>) {
    forall i :: 0 <= i < |es| ==> LinkError(c, keys, es, i) == None
  }

  /** The error of the first bad link. */
  function ChainErrorOf(c: Crypto, keys: map<KeyId, PublicKey>, es: seq<Event>): (e: Option<ChainError>)
    ensures e == None <==> ChainValid(c, keys, es)
  {
    if es == [] then None
    else
      var n := |es| - 1;
      LinkIsLocal(c, keys, es, n);
      match ChainErrorOf(c, keys, es[..n])
      case Some(e) =>
        assert !ChainValid(c, keys, es) by {
          var i :| 0 <= i < n && LinkError(c, keys, es[..n], i) != None;
          assert LinkError(c, keys, es, i) != None;
        }
        Some(e)
      case None =>
        assert forall i :: 0 <= i < n ==> LinkError(c, keys, es[..n], i) == None;
        LinkError(c, keys, es, n)
  }

  /** A link depends on the events up to it and on nothing after it. */
  lemma LinkIsLocal(c: Crypto, keys: map<KeyId, PublicKey>, es: seq<Event>, n: nat)
    requires n <= |es|
    ensures forall i :: 0 <= i < n ==> LinkError(c, keys, es[..n], i) == LinkError(c, keys, es, i)
  {
    forall i | 0 <= i < n
      ensures LinkError(c, keys, es[..n], i) == LinkError(c, keys, es, i)
    {
      assert es[..n][..i] == es[..i];
    }
  }

  method VerifyEventChain(c: Crypto, keys: map<KeyId, PublicKey>, es: seq<Event>)
    returns (r: Result<ChainSummary, ChainError>)
    ensures r == match ChainErrorOf(c, keys, es)
                 case None => Ok(ChainSummary(|es|, Head(es)))
                 case Some(e) => Err(e)
  {
    var previousHash: Option<Digest> := None;
    var index := 0;
    while index < |es|
      invariant 0 <= index <= |es|
      invariant previousHash == Head(es[..index])
      invariant ChainErrorOf(c, keys, es[..index]) == None
    {
      var event := es[index];
      var body := event.signed.body;
      ghost var upTo := es[..index + 1];
      assert upTo[..index] == es[..index] && upTo[index] == event;
      LinkIsLocal(c, keys, es, index + 1);
      if body.actionId != es[0].ActionId() {
        ErrorIsFinal(c, keys, es, index + 1);
        return Err(Tampered);
      }
      if body.sequence != index || body.previousHash != previousHash {
        ErrorIsFinal(c, keys, es, index + 1);
        return Err(Tampered);
      }
      match CheckSignature(c, EventB(body), event.signed.sig, keys) {
        case UntrustedKey =>
          ErrorIsFinal(c, keys, es, index + 1);
          return Err(Untrusted);
        case SignatureInvalid =>
          ErrorIsFinal(c, keys, es, index + 1);
          return Err(Tampered);
        case SignatureGood =>
      }
      var expectedHash := DigestSignedEvent(c, event.signed);
      if event.hash != expectedHash {
        ErrorIsFinal(c, keys, es, index + 1);
        return Err(Tampered);
      }
      previousHash := Some(event.hash);
      index := index + 1;
    }
    assert es[..|es|] == es;
    r := Ok(ChainSummary(|es|, previousHash));
  }

  lemma {:induction false} ErrorIsFinal(c: Crypto, keys: map<KeyId, PublicKey>, es: seq<Event>, n: nat)
    requires n <= |es| && ChainErrorOf(c, keys, es[..n]) != None
    ensures ChainErrorOf(c, keys, es) == ChainErrorOf(c, keys, es[..n])
    decreases |es|
  {
    if n < |es| {
      var m := |es| - 1;
      assert es[..m][..n] == es[..n];
      ErrorIsFinal(c, keys, es[..m], n);
    } else {
      assert es[..n] == es;
    }
  }

  // ----- What a checkpoint proves -----

  /** Two signed events that differ and have the same digest. */
  ghost predicate Collision(c: Crypto, x: Signed<EventBody>, y: Signed<EventBody>) {
    x != y && DigestSignedEvent(c, x) == DigestSignedEvent(c, y)
  }

  /** Either the first `n` events of two lists are the same, or somewhere in them sit two
      events that collide. */
  ghost predicate SamePrefixOrCollision(c: Crypto, es: seq<Event>, fs: seq<Event>, n: nat)
    requires n <= |es| && n <= |fs|
  {
    es[..n] == fs[..n] || exists i :: 0 <= i < n && Collision(c, es[i].signed, fs[i].signed)
  }

  /** verifyChainCheckpoint: one hash at one position fixes everything before it. */
  lemma {:induction false} CheckpointProvesPrefix(
      c: Crypto, esKeys: map<KeyId, PublicKey>, fsKeys: map<KeyId, PublicKey>,
      es: seq<Event>, fs: seq<Event>, n: nat)
    requires ChainValid(c, esKeys, es) && ChainValid(c, fsKeys, fs)
    requires 0 < n <= |es| && n <= |fs|
    requires es[n - 1].hash == fs[n - 1].hash
    ensures SamePrefixOrCollision(c, es, fs, n)
  {
    var i := n - 1;
    assert LinkError(c, esKeys, es, i) == None && LinkError(c, fsKeys, fs, i) == None;
    if es[i].signed != fs[i].signed {
      assert Collision(c, es[i].signed, fs[i].signed);
    } else if i == 0 {
      assert es[..1] == [es[0]] && fs[..1] == [fs[0]];
    } else {
      assert Head(es[..i]) == Some(es[i - 1].hash) && Head(fs[..i]) == Some(fs[i - 1].hash);
      CheckpointProvesPrefix(c, esKeys, fsKeys, es, fs, i);
      assert es[..n] == es[..i] + [es[i]] && fs[..n] == fs[..i] + [fs[i]];
    }
  }

  // ----- The store -----

  /** The event append() builds behind `es`. */
  function NextEvent(c: Crypto, signer: Signer, es: seq<Event>, id: Id, actor: string, now: Time,
      payload: Payload): Event {
    var body := EventBody(id, |es|, Head(es), actor, now, payload);
    var signed := Signed(body, MakeSignature(c, EventB(body), signer));
    Event(signed, DigestSignedEvent(c, signed))
  }

  /** Appending extends a verified chain of an action to a verified chain of that action. */
  lemma AppendKeepsChain(
      c: Crypto, signer: Signer, keys: map<KeyId, PublicKey>, es: seq<Event>,
      id: Id, actor: string, now: Time, payload: Payload)
    requires SoundSignatures(c)
    requires signer.kid in keys && keys[signer.kid] == signer.key
    requires ChainValid(c, keys, es)
    requires forall e <- es :: e.ActionId() == id
    ensures ChainValid(c, keys, es + [NextEvent(c, signer, es, id, actor, now, payload)])
  {
    var event := NextEvent(c, signer, es, id, actor, now, payload);
    var fs := es + [event];
    assert fs[..|es|] == es;
    LinkIsLocal(c, keys, fs, |es|);
    OwnSignatureChecks(c, EventB(event.signed.body), signer, keys);
    forall i | 0 <= i < |fs|
      ensures LinkError(c, keys, fs, i) == None
    {
      if i < |es| {
        assert LinkError(c, keys, es, i) == None;
      }
    }
  }

  class MemoryEventStore {
    const crypto: Crypto
    const signer: Signer
    var byAction: map<Id, seq<Event>>

    constructor (crypto: Crypto, signer: Signer)
      ensures this.crypto == crypto && this.signer == signer && byAction == map[]
    {
      this.crypto := crypto;
      this.signer := signer;
      byAction := map[];
    }

    function List(id: Id): seq<Event>
      reads this
    {
      if id in byAction then byAction[id] else []
    }

    /** Every stored list is a verified chain of the action it is filed under. */
    ghost predicate Valid()
      reads this
    {
      forall id <- byAction ::
        && ChainValid(crypto, map[signer.kid := signer.key], byAction[id])
        && forall e <- byAction[id] :: e.ActionId() == id
    }

    method Append(id: Id, actor: string, now: Time, payload: Payload) returns (event: Event)
      modifies this
      ensures event == NextEvent(crypto, signer, old(List(id)), id, actor, now, payload)
      ensures byAction == old(byAction)[id := old(List(id)) + [event]]
      ensures old(Valid()) && SoundSignatures(crypto) ==> Valid()
    {
      var events := List(id);
      var body := EventBody(id, |events|, Head(events), actor, now, payload);
      var signed := Signed(body, MakeSignature(crypto, EventB(body), signer));
      event := Event(signed, DigestSignedEvent(crypto, signed));
      if Valid() && SoundSignatures(crypto) {
        AppendKeepsChain(crypto, signer, map[signer.kid := signer.key], events, id, actor, now, payload);
      }
      byAction := byAction[id := events + [event]];
    }

    /** The contract of every configured store: one event becomes visible, or nothing changes. */
    method TryAppend(id: Id, actor: string, now: Time, payload: Payload) returns (ok: bool)
      modifies this
      ensures ok ==> byAction == old(byAction)[id := old(List(id)) +
                       [NextEvent(crypto, signer, old(List(id)), id, actor, now, payload)]]
      ensures !ok ==> byAction == old(byAction)
      ensures old(Valid()) && SoundSignatures(crypto) ==> Valid()
    {
      ok := *;
      if ok {
        var _ := Append(id, actor, now, payload);
      }
    }
  }
}

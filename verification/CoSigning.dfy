/** The feed's co-signature: the one signing path every stored document goes through. */
module CoSigning {
  import opened Documents

  /** Whether s is the entry the signer of `own` left on an earlier pass. Key and role must both
      match: the same key may also have signed as curator or publisher. */
  predicate SameSigner(s: Signature, own: Signature) {
    s.kid == own.kid && s.role == own.role
  }

  function Others(sigs: seq<Signature>, own: Signature): seq<Signature> {
    if sigs == [] then []
    else if SameSigner(sigs[0], own) then Others(sigs[1..], own)
    else [sigs[0]] + Others(sigs[1..], own)
  }

  function Merged(sigs: seq<Signature>, own: Signature): seq<Signature> {
    Others(sigs, own) + [own]
  }

  lemma {:induction false} OthersAppend(a: seq<Signature>, b: seq<Signature>, own: Signature)
    ensures Others(a + b, own) == Others(a, own) + Others(b, own)
  {
    if a == [] {
      assert a + b == b;
    } else {
      assert (a + b)[1..] == a[1..] + b;
      OthersAppend(a[1..], b, own);
    }
  }

  /** Builds the post-sign signature list entry by entry. */
  method MergeSignatures(sigs: seq<Signature>, own: Signature) returns (out: seq<Signature>)
    ensures out == Merged(sigs, own)
  {
    out := [];
    for i := 0 to |sigs|
      invariant out == Others(sigs[..i], own)
    {
      assert sigs[..i + 1] == sigs[..i] + [sigs[i]];
      OthersAppend(sigs[..i], [sigs[i]], own);
      if !SameSigner(sigs[i], own) {
        out := out + [sigs[i]];
      }
    }
    assert sigs[..|sigs|] == sigs;
    out := out + [own];
  }

  function FeedSignature(w: World, payload: Payload, ts: string): Signature {
    Signature(w.feedKid, Feed, ts, w.sign(DocumentContent(payload)))
  }

  /** The stored form of a submitted document. */
  function CoSign(w: World, doc: Document, ts: string): Document {
    doc.(signatures := Merged(doc.signatures, FeedSignature(w, doc.payload, ts)))
  }

  function CountSigner(sigs: seq<Signature>, own: Signature): nat {
    if sigs == [] then 0
    else (if SameSigner(sigs[0], own) then 1 else 0) + CountSigner(sigs[1..], own)
  }

  lemma {:induction false} CountSignerAppend(a: seq<Signature>, b: seq<Signature>, own: Signature)
    ensures CountSigner(a + b, own) == CountSigner(a, own) + CountSigner(b, own)
  {
    if a == [] {
      assert a + b == b;
    } else {
      assert (a + b)[1..] == a[1..] + b;
      CountSignerAppend(a[1..], b, own);
    }
  }

  lemma {:induction false} OthersMembers(sigs: seq<Signature>, own: Signature, s: Signature)
    ensures s in Others(sigs, own) <==> s in sigs && !SameSigner(s, own)
  {
    if sigs != [] {
      OthersMembers(sigs[1..], own, s);
      assert sigs == [sigs[0]] + sigs[1..];
    }
  }

  lemma {:induction false} OthersSettles(sigs: seq<Signature>, own: Signature)
    ensures CountSigner(Others(sigs, own), own) == 0
    ensures Others(Others(sigs, own), own) == Others(sigs, own)
  {
    if sigs != [] {
      OthersSettles(sigs[1..], own);
      if !SameSigner(sigs[0], own) {
        assert Others(sigs, own)[1..] == Others(sigs[1..], own);
      }
    }
  }

  /** Co-signing changes only the signature list: every entry that is not the feed's own is kept, in
      order, and the result carries exactly one entry by the feed in the feed role, at the end. */
  lemma CoSignKeepsOthers(w: World, doc: Document, ts: string)
    ensures var own := FeedSignature(w, doc.payload, ts);
            var out := CoSign(w, doc, ts);
            && out.payload == doc.payload
            && Others(out.signatures, own) == Others(doc.signatures, own)
            && CountSigner(out.signatures, own) == 1
            && out.signatures[|out.signatures| - 1] == own
            && forall s :: s in out.signatures <==> s == own || (s in doc.signatures && !SameSigner(s, own))
  {
    var own := FeedSignature(w, doc.payload, ts);
    OthersSettles(doc.signatures, own);
    forall s {
      OthersMembers(doc.signatures, own, s);
    }
    OthersAppend(Others(doc.signatures, own), [own], own);
    CountSignerAppend(Others(doc.signatures, own), [own], own);
    assert Others([own], own) == [];
  }

  /** The stored form carries the submitted payload and signatures, without any earlier entry of the feed's
      key in the feed role, and at the end a fresh one: the feed's signature of the payload, of now. */
  lemma CoSignMeans(w: World, doc: Document, ts: string)
    ensures var out := CoSign(w, doc, ts);
            && out.payload == doc.payload
            && out.signatures != []
            && out.signatures[|out.signatures| - 1]
               == Signature(w.feedKid, Feed, ts, w.sign(DocumentContent(doc.payload)))
            && forall s :: s in out.signatures[..|out.signatures| - 1] <==>
                 s in doc.signatures && !(s.kid == w.feedKid && s.role == Feed)
  {
    var own := FeedSignature(w, doc.payload, ts);
    forall s {
      OthersMembers(doc.signatures, own, s);
    }
    assert Merged(doc.signatures, own)[..|Others(doc.signatures, own)|] == Others(doc.signatures, own);
  }

  /** Of two entries that stay, the one before the other stays before it. */
  lemma CoSignKeepsOrder(w: World, doc: Document, ts: string, i: nat, j: nat) returns (i': nat, j': nat)
    requires i < j < |doc.signatures|
    requires forall s :: s in [doc.signatures[i], doc.signatures[j]] ==> !(s.kid == w.feedKid && s.role == Feed)
    ensures i' < j' < |CoSign(w, doc, ts).signatures| - 1
    ensures CoSign(w, doc, ts).signatures[i'] == doc.signatures[i]
    ensures CoSign(w, doc, ts).signatures[j'] == doc.signatures[j]
  {
    var sigs, own := doc.signatures, FeedSignature(w, doc.payload, ts);
    assert sigs[i] in [sigs[i], sigs[j]] && sigs[j] in [sigs[i], sigs[j]];
    var a, b, c := sigs[..i], sigs[i + 1..j], sigs[j + 1..];
    assert sigs == a + [sigs[i]] + b + [sigs[j]] + c;
    OthersAppend(a + [sigs[i]] + b + [sigs[j]], c, own);
    OthersAppend(a + [sigs[i]] + b, [sigs[j]], own);
    OthersAppend(a + [sigs[i]], b, own);
    OthersAppend(a, [sigs[i]], own);
    assert Others([sigs[i]], own) == [sigs[i]] && Others([sigs[j]], own) == [sigs[j]];
    i', j' := |Others(a, own)|, |Others(a, own)| + 1 + |Others(b, own)|;
  }

  /** Each signature by anybody but the feed is still there and verifies exactly when it did before,
      whatever the others do; the feed's new entry verifies; so a document whose signatures all verify
      still is one. */
  lemma CoSignVerifies(w: World, doc: Document, ts: string)
    requires FeedSigns(w)
    ensures var own, out := FeedSignature(w, doc.payload, ts), CoSign(w, doc, ts);
            && (forall s :: s in doc.signatures && !SameSigner(s, own) ==>
                  && s in out.signatures
                  && (w.verify(s.kid, DocumentContent(out.payload), s.sig)
                      <==> w.verify(s.kid, DocumentContent(doc.payload), s.sig)))
            && own in out.signatures && w.verify(own.kid, DocumentContent(out.payload), own.sig)
            && (AllVerify(w, DocumentContent(doc.payload), doc.signatures) ==>
                  AllVerify(w, DocumentContent(out.payload), out.signatures))
  {
    CoSignKeepsOthers(w, doc, ts);
  }

  /** Signing a document the feed already signed is the same as signing it once, later. */
  lemma CoSignTwice(w: World, doc: Document, first: string, second: string)
    ensures CoSign(w, CoSign(w, doc, first), second) == CoSign(w, doc, second)
  {
    var old1 := FeedSignature(w, doc.payload, first);
    var own := FeedSignature(w, doc.payload, second);
    SameOthers(doc.signatures, old1, own);
    SameOthers(Merged(doc.signatures, old1), old1, own);
    CoSignKeepsOthers(w, doc, first);
  }

  /** Which entries are "others" depends on the signer, not on the timestamp or signature bytes. */
  lemma {:induction false} SameOthers(sigs: seq<Signature>, a: Signature, b: Signature)
    requires SameSigner(a, b)
    ensures Others(sigs, a) == Others(sigs, b)
  {
    if sigs != [] {
      SameOthers(sigs[1..], a, b);
    }
  }
}

/** Lists of frames on the UART: the data they carry, and what the decoder at the other end makes of
    their bytes. */
module FrameStreams {
  import opened Bytes
  import P = ExpansionProtocol

  // ----- the data carried by a list of frames -----

  function PayloadOf(f: P.Frame): seq<Byte> {
    if f.Data? then f.payload else []
  }

  function Carried(fs: seq<P.Frame>): seq<Byte> {
    if fs == [] then [] else PayloadOf(fs[0]) + Carried(fs[1..])
  }

  predicate NoData(fs: seq<P.Frame>) {
    forall i | 0 <= i < |fs| :: !fs[i].Data?
  }

  lemma {:induction false} CarriedConcat(a: seq<P.Frame>, b: seq<P.Frame>)
    ensures Carried(a + b) == Carried(a) + Carried(b)
  {
    if a == [] {
      assert a + b == b;
    } else {
      assert (a + b)[1..] == a[1..] + b;
      CarriedConcat(a[1..], b);
      Regroup(PayloadOf(a[0]), Carried(a[1..]), Carried(b));
    }
  }

  lemma {:induction false} NoDataCarriesNothing(fs: seq<P.Frame>)
    requires NoData(fs)
    ensures Carried(fs) == []
  {
    if fs != [] {
      NoDataCarriesNothing(fs[1..]);
    }
  }

  lemma CarriedByOne(f: P.Frame)
    ensures Carried([f]) == PayloadOf(f)
  {
    assert [f][1..] == [];
  }

  lemma {:induction false} EncodeAllAppend(a: seq<P.Frame>, b: seq<P.Frame>)
    requires P.AllWellFormed(a) && P.AllWellFormed(b)
    ensures P.AllWellFormed(a + b) && P.EncodeAll(a + b) == P.EncodeAll(a) + P.EncodeAll(b)
  {
    if a == [] {
      assert a + b == b;
    } else {
      assert (a + b)[0] == a[0] && (a + b)[1..] == a[1..] + b;
      EncodeAllAppend(a[1..], b);
      P.EncodeAllConcat(a, P.EncodeAll(b));
    }
  }

  lemma EncodeOne(f: P.Frame)
    requires P.WellFormed(f)
    ensures P.AllWellFormed([f]) && P.EncodeAll([f]) == P.Encode(f)
  {
    assert [f][1..] == [];
    assert P.EncodeAll([f]) == P.Encode(f) + P.EncodeAll([]);
  }

  /** What a decoder makes of UART output that is a list of whole frames. */
  lemma WholeFramesAreHeard(fs: seq<P.Frame>)
    requires P.AllWellFormed(fs)
    ensures P.DecodeStream([], P.EncodeAll(fs)) == P.Stream(fs, [], [], [])
  {
    P.DecodeEncodeAll(fs, []);
    assert P.EncodeAll(fs) + [] == P.EncodeAll(fs);
    assert fs + [] == fs;
  }
}

/** The entries of a vtxo's pre-signed transaction chain, which ancestors an entry names, and
    when a chain's ancestry is broken (src/exit/chain_order.ts). */
module ExitChain {

  datatype TxKind = Commitment | Unspecified | Ark | Tree | Checkpoint

  /** One entry as the indexer returns it: `spends` names ancestors, as bare txids or as
      "txid:vout" outpoints, possibly blank, repeated or self-referential. */
  datatype ChainTx = ChainTx(txid: string, kind: TxKind, spends: seq<string>)

  const BLANKS: set<char> := {' ', '\t', '\n', '\r', '\U{000B}', '\U{000C}', '\U{00A0}', '\U{FEFF}', '\U{2028}', '\U{2029}',
                              '\U{1680}', '\U{2000}', '\U{2001}', '\U{2002}', '\U{2003}', '\U{2004}', '\U{2005}', '\U{2006}',
                              '\U{2007}', '\U{2008}', '\U{2009}', '\U{200A}', '\U{202F}', '\U{205F}', '\U{3000}'}

  predicate Blank(s: string) {
    forall c :: c in s ==> c in BLANKS
  }

  /** The part of an outpoint before its first colon. */
  function TxidPart(s: string): (r: string)
    ensures ':' !in r && r <= s && (r == s || s[|r|] == ':')
  {
    if s == [] || s[0] == ':' then [] else [s[0]] + TxidPart(s[1..])
  }

  /** One spend among the ancestors collected so far. */
  predicate Names(tx: ChainTx, s: string, x: string) {
    s in tx.spends && !Blank(s) && TxidPart(s) == x && x != tx.txid
  }

  function Collect(spends: seq<string>, self: string): (r: seq<string>) {
    if spends == [] then []
    else
      var before := Collect(spends[..|spends| - 1], self);
      var s := spends[|spends| - 1];
      if Blank(s) || TxidPart(s) == self || TxidPart(s) in before then before else before + [TxidPart(s)]
  }

  /** The ancestors an entry names, in order of first mention. */
  function ParentTxids(tx: ChainTx): (r: seq<string>) {
    Collect(tx.spends, tx.txid)
  }

  ghost predicate Distinct<T>(s: seq<T>) {
    forall i, j :: 0 <= i < j < |s| ==> s[i] != s[j]
  }

  lemma {:induction false} CollectNames(spends: seq<string>, self: string)
    ensures Distinct(Collect(spends, self))
    ensures forall x :: x in Collect(spends, self) <==> x != self && exists s :: s in spends && !Blank(s) && TxidPart(s) == x
  {
    if spends != [] {
      var rest, s := spends[..|spends| - 1], spends[|spends| - 1];
      CollectNames(rest, self);
      assert spends == rest + [s];
      forall x ensures x in Collect(spends, self) <==> x != self && exists s :: s in spends && !Blank(s) && TxidPart(s) == x {
        if x in Collect(rest, self) {
          var t :| t in rest && !Blank(t) && TxidPart(t) == x;
          assert t in spends;
        }
        if t :| t in spends && !Blank(t) && TxidPart(t) == x {
          assert t in rest || t == s;
        }
      }
    }
  }

  /** An ancestor is listed exactly when some spend names it: blanks name nothing, an outpoint
      names its transaction, an entry is no ancestor of itself; and it is listed once. */
  lemma ParentsAreNamed(tx: ChainTx)
    ensures Distinct(ParentTxids(tx))
    ensures forall x :: x in ParentTxids(tx) <==> exists s :: Names(tx, s, x)
  {
    CollectNames(tx.spends, tx.txid);
    forall x ensures x in ParentTxids(tx) <==> exists s :: Names(tx, s, x) {
      if x in ParentTxids(tx) {
        var s :| s in tx.spends && !Blank(s) && TxidPart(s) == x;
        assert Names(tx, s, x);
      }
    }
  }

  function Txids(chain: seq<ChainTx>): set<string> {
    set tx | tx in chain :: tx.txid
  }

  /** An entry that names ancestors of which the chain holds none. */
  predicate Dangles(tx: ChainTx, present: set<string>) {
    ParentTxids(tx) != [] && forall p :: p in ParentTxids(tx) ==> p !in present
  }

  function DanglingAmong(chain: seq<ChainTx>, present: set<string>): (r: seq<ChainTx>)
    ensures forall tx :: tx in r <==> tx in chain && Dangles(tx, present)
  {
    if chain == [] then []
    else (if Dangles(chain[0], present) then [chain[0]] else []) + DanglingAmong(chain[1..], present)
  }

  function DanglingEntries(chain: seq<ChainTx>): (r: seq<ChainTx>)
    ensures forall tx :: tx in r <==> tx in chain && Dangles(tx, Txids(chain))
    ensures r == [] <==> forall tx :: tx in chain ==> !Dangles(tx, Txids(chain))
  {
    var r := DanglingAmong(chain, Txids(chain));
    assert r != [] ==> r[0] in r;
    r
  }

  /** An ancestry is unbroken exactly when every entry that names an ancestor names one that is
      an entry itself. */
  lemma WholeExactlyWhen(chain: seq<ChainTx>)
    ensures DanglingEntries(chain) == [] <==>
      forall tx :: tx in chain ==> (forall s, x :: !Names(tx, s, x)) || exists s, other :: other in chain && Names(tx, s, other.txid)
  {
    forall tx | tx in chain
      ensures Dangles(tx, Txids(chain)) <==> !(forall s, x :: !Names(tx, s, x)) && !exists s, other :: other in chain && Names(tx, s, other.txid)
    {
      ParentsAreNamed(tx);
      if ParentTxids(tx) != [] {
        assert ParentTxids(tx)[0] in ParentTxids(tx);
      }
      if s, other :| other in chain && Names(tx, s, other.txid) {
        assert other.txid in ParentTxids(tx) && other.txid in Txids(chain);
      }
      if p :| p in ParentTxids(tx) && p in Txids(chain) {
        var other :| other in chain && other.txid == p;
        var s :| Names(tx, s, p);
        assert Names(tx, s, other.txid);
      }
      if s, x :| Names(tx, s, x) {
        assert x in ParentTxids(tx);
      }
    }
  }

  /** What names nothing: the empty string and white space; one other character is enough. */
  lemma BlankExactlyWhen(s: string, c: char)
    ensures Blank("") && (Blank(s + [c]) <==> Blank(s) && c in BLANKS)
    ensures ' ' in BLANKS && '\t' in BLANKS && '\n' in BLANKS && '\r' in BLANKS && ':' !in BLANKS
    ensures '0' <= c <= '9' || 'a' <= c <= 'z' || 'A' <= c <= 'Z' ==> c !in BLANKS
  {
    assert forall d :: d in s + [c] <==> d in s || d == c;
  }

  /** The entries that need a stored proof: all but the ones already onchain. */
  function ProofTxids(chain: seq<ChainTx>): (r: seq<string>)
    ensures forall x :: x in r <==> exists tx :: tx in chain && tx.kind != Commitment && tx.kind != Unspecified && tx.txid == x
  {
    if chain == [] then []
    else
      assert forall tx :: tx in chain <==> tx == chain[0] || tx in chain[1..];
      (if NeedsProof(chain[0]) then [chain[0].txid] else []) + ProofTxids(chain[1..])
  }

  predicate NeedsProof(tx: ChainTx) {
    tx.kind != Commitment && tx.kind != Unspecified
  }
}

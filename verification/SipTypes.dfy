/**
 The vocabulary of the SIP core: methods, states and packets (src/sip/sip.hpp), the
 parsed packet the processor works on (src/sip/SipPacket.hpp), and the order of
 transaction branches in a std::map.
 */
module SipTypes {

  datatype Option<+T> = None | Some(value: T)

  datatype Method = Invite | Ack | Bye | Cancel | Register | Options | Info | UndefinedMethod

  datatype MessageType = Request | Response | Malformed

  datatype TransactionPhase = Calling | Proceeding | Trying | Completed | Confirmed | Terminated

  /** The client's and the server's view of one transaction, tracked as a pair. */
  datatype TransactionState = State(client: TransactionPhase, server: TransactionPhase)

  datatype DialogState = DsUndefined | DsInit | DsEarly | DsConfirmed | DsTerminating

  datatype SinkStatus = RsInit | RsConfirmed | RsConfirmedInit | RsTerminated

  datatype TransactionId = TransactionId(branch: string, cseqMethod: Method)

  /** A From or To header: tag, address and display name. */
  datatype Party = Party(tag: string, address: string, displayname: string)

  /** The UDP socket of an RTP stream; SDP parsing always sets the protocol to UDP. */
  datatype SocketAddress = SocketAddress(ip: nat, port: nat)

  /** A SIP packet after parsing; `parses` is the result of SipPacket::parse. */
  datatype Packet = Packet(
    parses: bool,
    kind: MessageType,
    callId: string,
    from: Party,
    to: Party,
    branch: string,
    sentBy: string,
    cseqMethod: Method,
    cseqNum: nat,
    requestMethod: Method,
    responseCode: nat,
    responseReason: string,
    sdp: Option<SocketAddress>)
  {
    function Id(): TransactionId { TransactionId(branch, cseqMethod) }

    predicate IsRequest(m: Method) { kind == Request && requestMethod == m }

    predicate IsProvisional() { kind == Response && 100 <= responseCode <= 199 }

    predicate IsSuccess() { kind == Response && 200 <= responseCode <= 299 }

    predicate IsNonSuccess() { kind == Response && !IsProvisional() && !IsSuccess() }

    /** Section 8.1.1.5 of RFC 3261: the CSeq method of a request is its method. */
    predicate WellFormed() { kind == Request ==> requestMethod == cseqMethod }
  }

  const CALLING_PROCEEDING := State(Calling, Proceeding)
  const PROCEEDING_PROCEEDING := State(Proceeding, Proceeding)
  const TRYING_TRYING := State(Trying, Trying)
  const TERMINATED_COMPLETED := State(Terminated, Completed)
  const TERMINATED_TERMINATED := State(Terminated, Terminated)

  /** std::map::insert: an entry that is there already is kept. */
  function InsertNew<K, V>(m: map<K, V>, k: K, v: V): (r: map<K, V>)
    ensures k in m ==> r == m
    ensures k !in m ==> r == m[k := v]
  {
    if k in m then m else m[k := v]
  }

  // ---- the order of std::string, which decides where a std::map iteration starts ----

  predicate Leq(a: string, b: string) {
    a == "" || (b != "" && (a[0] < b[0] || (a[0] == b[0] && Leq(a[1..], b[1..]))))
  }

  lemma {:induction false} LeqTotal(a: string, b: string)
    ensures Leq(a, b) || Leq(b, a)
  {
    if a != "" && b != "" && a[0] == b[0] {
      LeqTotal(a[1..], b[1..]);
    }
  }

  lemma {:induction false} LeqAntisymmetric(a: string, b: string)
    requires Leq(a, b) && Leq(b, a)
    ensures a == b
  {
    if a != "" && b != "" {
      LeqAntisymmetric(a[1..], b[1..]);
      assert a == [a[0]] + a[1..] && b == [b[0]] + b[1..];
    }
  }

  lemma {:induction false} LeqTransitive(a: string, b: string, c: string)
    requires Leq(a, b) && Leq(b, c)
    ensures Leq(a, c)
  {
    if a != "" && a[0] == b[0] == c[0] {
      LeqTransitive(a[1..], b[1..], c[1..]);
    }
  }

  /** The first difference decides, and a prefix comes before what it is a prefix of. */
  lemma {:induction false} LeqIsLexicographic(a: string, b: string, i: nat)
    requires i <= |a| && i <= |b| && a[..i] == b[..i]
    requires i == |a| || i == |b| || a[i] != b[i]
    ensures Leq(a, b) <==> i == |a| || (i < |b| && a[i] < b[i])
  {
    if i > 0 {
      assert a[0] == a[..i][0] == b[..i][0] == b[0];
      assert a[1..][..i - 1] == a[..i][1..] && b[1..][..i - 1] == b[..i][1..];
      LeqIsLexicographic(a[1..], b[1..], i - 1);
    }
  }

  ghost predicate IsLeast(b: string, bs: set<string>) {
    b in bs && forall x <- bs :: Leq(b, x)
  }

  lemma {:induction false} LeastExists(bs: set<string>)
    requires bs != {}
    ensures exists b :: IsLeast(b, bs)
    decreases |bs|
  {
    var x :| x in bs;
    var rest := bs - {x};
    if rest == {} {
      LeqTotal(x, x);
      assert bs == {x};
      assert IsLeast(x, bs);
    } else {
      LeastExists(rest);
      var y :| IsLeast(y, rest);
      LeqTotal(x, y);
      LeqTotal(x, x);
      if Leq(x, y) {
        forall z <- bs ensures Leq(x, z) { if z != x { LeqTransitive(x, y, z); } }
        assert IsLeast(x, bs);
      } else {
        assert IsLeast(y, bs);
      }
    }
  }

  ghost function Least(bs: set<string>): (b: string)
    requires bs != {}
    ensures IsLeast(b, bs)
    ensures forall x :: IsLeast(x, bs) ==> x == b
  {
    LeastExists(bs);
    var b :| IsLeast(b, bs);
    assert forall x :: IsLeast(x, bs) ==> x == b by {
      forall x | IsLeast(x, bs) ensures x == b { LeqAntisymmetric(x, b); }
    }
    b
  }
}

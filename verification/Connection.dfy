/**
 Sending data down a connection in as many parts as it takes: send_data_to_fd of lab3/src/common/common.c.
 */
module Connection {
  import opened Broadcast

  /** answers are how many bytes the connection will take at each send, which may be none; a negative number is a
      broken send, and so is a send after the last answer. */
  class Socket {
    var received: seq<Byte>
    var answers: seq<int>

    method Send(data: seq<Byte>) returns (n: int)
      requires data != []
      modifies this
      ensures n == if old(answers) == [] || old(answers)[0] < 0 then -1 else Min(old(answers)[0], |data|)
      ensures received == old(received) + data[..if n == -1 then 0 else n]
      ensures answers == if old(answers) == [] then [] else old(answers)[1..]
    {
      if answers == [] {
        return -1;
      }
      n := if answers[0] < 0 then -1 else Min(answers[0], |data|);
      answers := answers[1..];
      if n > 0 {
        received := received + data[..n];
      }
    }
  }

  function Min(a: int, b: int): int { if a <= b then a else b }

  // The connection takes n bytes in all.
  predicate Accepts(answers: seq<int>, n: nat)
    decreases |answers|
  {
    n == 0 || (answers != [] && answers[0] >= 0 && Accepts(answers[1..], n - Min(answers[0], n)))
  }

  // The answers that are left when n bytes have been taken.
  function Left(answers: seq<int>, n: nat): seq<int>
    decreases |answers|
  {
    if n == 0 || answers == [] || answers[0] < 0 then answers else Left(answers[1..], n - Min(answers[0], n))
  }

  function Total(xs: seq<int>): int { if xs == [] then 0 else xs[0] + Total(xs[1..]) }

  // The first j answers are not broken and make up n bytes.
  predicate Enough(answers: seq<int>, n: nat, j: nat)
  {
    j <= |answers| && (forall i :: 0 <= i < j ==> answers[i] >= 0) && Total(answers[..j]) >= n
  }

  /** n bytes go through exactly when they are taken before the first broken send. */
  lemma {:induction false} AcceptsExactly(answers: seq<int>, n: nat)
    ensures Accepts(answers, n) <==> exists j: nat :: Enough(answers, n, j)
    decreases |answers|
  {
    if n == 0 {
      assert Enough(answers, n, 0);
    } else if answers != [] && answers[0] >= 0 {
      var m := n - Min(answers[0], n);
      AcceptsExactly(answers[1..], m);
      if j: nat :| Enough(answers[1..], m, j) {
        assert answers[..j + 1][1..] == answers[1..][..j];
        assert Enough(answers, n, j + 1);
      }
      if j: nat :| Enough(answers, n, j) {
        if j > 0 {
          assert answers[..j][1..] == answers[1..][..j - 1];
          forall i | 0 <= i < j - 1
            ensures answers[1..][i] >= 0
          {
            assert answers[1..][i] == answers[i + 1];
          }
          TotalGrows(answers[1..][..j - 1]);
          assert Enough(answers[1..], m, j - 1);
        }
      }
    } else if j: nat :| Enough(answers, n, j) {
      assert j == 0;
    }
  }

  // The first j answers are enough, and fewer are not.
  predicate JustEnough(answers: seq<int>, n: nat, j: nat)
  {
    Enough(answers, n, j) && (j > 0 ==> !Enough(answers, n, j - 1))
  }

  /** Taking n bytes uses up as many answers as are needed, and no more. */
  lemma {:induction false} LeftExactly(answers: seq<int>, n: nat) returns (j: nat)
    requires Accepts(answers, n)
    ensures JustEnough(answers, n, j) && Left(answers, n) == answers[j..]
    decreases |answers|
  {
    if n == 0 {
      j := 0;
    } else {
      var i := LeftExactly(answers[1..], n - Min(answers[0], n));
      EnoughNext(answers, n, i);
      if i > 0 {
        EnoughNext(answers, n, i - 1);
      }
      j := i + 1;
      assert answers[1..][i..] == answers[j..];
    }
  }

  // The first answer counts towards the n bytes.
  lemma EnoughNext(answers: seq<int>, n: nat, j: nat)
    requires n > 0 && answers != [] && answers[0] >= 0
    ensures Enough(answers, n, j + 1) <==> Enough(answers[1..], n - Min(answers[0], n), j)
  {
    if j + 1 <= |answers| {
      assert answers[..j + 1][1..] == answers[1..][..j];
      if forall i :: 0 <= i < j ==> answers[1..][i] >= 0 {
        TotalGrows(answers[1..][..j]);
      }
      assert forall i :: 0 <= i < j ==> answers[1..][i] == answers[i + 1];
      assert (forall i :: 0 <= i < j + 1 ==> answers[i] >= 0) ==> forall i :: 0 <= i < j ==> answers[1..][i] >= 0;
    }
  }

  // The connection takes one piece after the other, each with sends of its own.
  predicate AcceptsAll(answers: seq<int>, pieces: seq<seq<Byte>>)
    decreases |pieces|
  {
    pieces == [] || (Accepts(answers, |pieces[0]|) && AcceptsAll(Left(answers, |pieces[0]|), pieces[1..]))
  }

  // What is left of it after some pieces decides about the others.
  lemma {:induction false} LeftAll(answers: seq<int>, pieces: seq<seq<Byte>>, more: seq<seq<Byte>>)
    ensures AcceptsAll(answers, pieces + more) <==>
      AcceptsAll(answers, pieces) && AcceptsAll(AnswersLeft(answers, pieces), more)
    decreases |pieces|
  {
    if pieces == [] {
      assert pieces + more == more;
    } else {
      LeftAll(Left(answers, |pieces[0]|), pieces[1..], more);
      assert (pieces + more)[1..] == pieces[1..] + more;
    }
  }

  function AnswersLeft(answers: seq<int>, pieces: seq<seq<Byte>>): seq<int>
    decreases |pieces|
  {
    if pieces == [] then answers else AnswersLeft(Left(answers, |pieces[0]|), pieces[1..])
  }

  /** It is not enough that the answers make up all the bytes: a send of one piece takes nothing of the next. */
  lemma OneSendEach()
    ensures var pieces := [[1, 2], [3, 4, 5]]; Accepts([5], |Flat(pieces)|) && !AcceptsAll([5], pieces)
  {
    FlatFirst([[1, 2], [3, 4, 5]]);
    FlatFirst([[3, 4, 5]]);
    assert Left([5], 2) == Left([], 0) == [];
    assert Accepts([], 0);
    assert Accepts([5], 5);
    assert [[1, 2], [3, 4, 5]][1..] == [[3, 4, 5]];
    assert !Accepts([], 3);
  }

  /** A connection that never breaks and takes something at every send takes everything, if it lasts long enough. */
  lemma {:induction false} SoundAcceptsAll(answers: seq<int>, pieces: seq<seq<Byte>>)
    requires (forall i :: 0 <= i < |answers| ==> answers[i] >= 1) && |answers| >= |Flat(pieces)|
    ensures AcceptsAll(answers, pieces)
    decreases |pieces|
  {
    if pieces != [] {
      var n := |pieces[0]|;
      FlatFirst(pieces);
      SoundAccepts(answers, n);
      SoundAcceptsAll(Left(answers, n), pieces[1..]);
    }
  }

  lemma {:induction false} SoundAccepts(answers: seq<int>, n: nat)
    requires (forall i :: 0 <= i < |answers| ==> answers[i] >= 1) && |answers| >= n
    ensures Accepts(answers, n) && |Left(answers, n)| >= |answers| - n
    ensures forall i :: 0 <= i < |Left(answers, n)| ==> Left(answers, n)[i] >= 1
    decreases |answers|
  {
    if n > 0 {
      SoundAccepts(answers[1..], n - Min(answers[0], n));
    }
  }

  lemma {:induction false} FlatFirst(pieces: seq<seq<Byte>>)
    requires pieces != []
    ensures |Flat(pieces)| == |pieces[0]| + |Flat(pieces[1..])|
    decreases |pieces|
  {
    var n := |pieces| - 1;
    if n == 0 {
      assert pieces[..0] == [] && pieces[1..] == [];
    } else {
      FlatFirst(pieces[..n]);
      assert pieces[..n][1..] == pieces[1..][..n - 1];
    }
  }

  lemma {:induction false} TotalGrows(xs: seq<int>)
    requires forall i :: 0 <= i < |xs| ==> xs[i] >= 0
    ensures Total(xs) >= 0
  {
    if xs != [] {
      TotalGrows(xs[1..]);
    }
  }

  /** send_data_to_fd: all of the data arrives, once and in order, however the connection splits it; or the sends
      break, and a proper part of it has arrived. */
  method SendDataToFd(socket: Socket, data: seq<Byte>) returns (rc: int)
    modifies socket
    ensures rc == if Accepts(old(socket.answers), |data|) then 0 else -1
    ensures rc == 0 ==> socket.answers == Left(old(socket.answers), |data|)
    ensures rc == 0 ==> socket.received == old(socket.received) + data
    ensures rc != 0 ==> exists k :: 0 <= k < |data| && socket.received == old(socket.received) + data[..k]
  {
    var total := 0;
    while total < |data|
      invariant 0 <= total <= |data|
      invariant socket.received == old(socket.received) + data[..total]
      invariant Accepts(socket.answers, |data| - total) == Accepts(old(socket.answers), |data|)
      invariant Left(socket.answers, |data| - total) == Left(old(socket.answers), |data|)
      decreases |socket.answers|, |data| - total
    {
      var sent := socket.Send(data[total..]);
      if sent == -1 {
        return -1;
      }
      assert data[..total] + data[total..][..sent] == data[..total + sent];
      total := total + sent;
    }
    assert data[..total] == data;
    return if total == |data| then 0 else -1;
  }
}

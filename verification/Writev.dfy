/** The gather-write loop: an I/O vector stands for the bytes of its buffers one after the other, a
    partial write advances it in a scratch copy, and the loop goes on until everything is written
    or an error or an extra event ends it. */
module Writev {

  /** The number of vectors that pth.h allows where the system does not say. */
  const UIO_MAXIOV: int := 1024

  type byte = x: int | 0 <= x < 256

  /** A buffer: where it starts in memory and how long it is. */
  datatype IoVec = IoVec(base: nat, len: nat)

  ghost predicate InMemory(mem: seq<byte>, v: seq<IoVec>) {
    forall i :: 0 <= i < |v| ==> v[i].base + v[i].len <= |mem|
  }

  /** The bytes that a vector stands for. */
  ghost function Bytes(mem: seq<byte>, v: seq<IoVec>): seq<byte>
    requires InMemory(mem, v)
  {
    if v == [] then [] else mem[v[0].base..v[0].base + v[0].len] + Bytes(mem, v[1..])
  }

  lemma {:induction false} BytesAppend(mem: seq<byte>, v: seq<IoVec>, x: IoVec)
    requires InMemory(mem, v) && x.base + x.len <= |mem|
    ensures Bytes(mem, v + [x]) == Bytes(mem, v) + mem[x.base..x.base + x.len]
  {
    if v == [] {
      assert v + [x] == [x];
    } else {
      assert (v + [x])[1..] == v[1..] + [x];
      BytesAppend(mem, v[1..], x);
    }
  }

  /** Counts the bytes of a vector. */
  method IovBytes(iov: array<IoVec>, ghost mem: seq<byte>) returns (bytes: nat)
    requires InMemory(mem, iov[..])
    ensures bytes == |Bytes(mem, iov[..])|
  {
    bytes := 0;
    for i := 0 to iov.Length
      invariant bytes == |Bytes(mem, iov[..i])|
    {
      assert iov[..i + 1] == iov[..i] + [iov[i]];
      BytesAppend(mem, iov[..i], iov[i]);
      if iov[i].len <= 0 {
        continue;
      }
      bytes := bytes + iov[i].len;
    }
    assert iov[..iov.Length] == iov[..];
  }

  /** Makes the scratch vector a copy of the real one. */
  method Copy(riov: array<IoVec>, tiov: array<IoVec>)
    requires riov != tiov && riov.Length <= tiov.Length
    modifies tiov
    ensures tiov[..riov.Length] == riov[..]
  {
    for i := 0 to riov.Length
      invariant tiov[..i] == riov[..i]
    {
      tiov[i] := riov[i];
    }
  }

  lemma {:induction false} Shorten(mem: seq<byte>, s: seq<IoVec>, n: nat)
    requires s != [] && InMemory(mem, s) && n < s[0].len
    ensures var s' := [IoVec(s[0].base + n, s[0].len - n)] + s[1..];
      InMemory(mem, s') && n <= |Bytes(mem, s)| && Bytes(mem, s') == Bytes(mem, s)[n..]
  {
    var s' := [IoVec(s[0].base + n, s[0].len - n)] + s[1..];
    var b := mem[s[0].base..s[0].base + s[0].len];
    assert s'[1..] == s[1..];
    assert mem[s'[0].base..s'[0].base + s'[0].len] == b[n..];
    assert (b + Bytes(mem, s[1..]))[n..] == b[n..] + Bytes(mem, s[1..]);
  }

  lemma {:induction false} Skip(mem: seq<byte>, s: seq<IoVec>, n: nat)
    requires s != [] && InMemory(mem, s) && s[0].len <= n <= |Bytes(mem, s)|
    ensures n - s[0].len <= |Bytes(mem, s[1..])|
    ensures Bytes(mem, s)[n..] == Bytes(mem, s[1..])[n - s[0].len..]
  {
  }

  /** Moves the start of the vector v[off..off + cnt] forward by `advance` bytes, in place. */
  method Consume(v: array<IoVec>, off: nat, cnt: nat, advance: nat, ghost mem: seq<byte>) returns (off': nat, cnt': nat)
    requires off + cnt <= v.Length && InMemory(mem, v[off..off + cnt])
    requires advance <= |Bytes(mem, v[off..off + cnt])|
    modifies v
    ensures off' + cnt' == off + cnt && InMemory(mem, v[off'..off' + cnt'])
    ensures Bytes(mem, v[off'..off' + cnt']) == old(Bytes(mem, v[off..off + cnt]))[advance..]
  {
    hide InMemory, Bytes;
    ghost var goal := Bytes(mem, v[off..off + cnt])[advance..];
    off', cnt' := off, cnt;
    var left: nat := advance;
    while cnt' > 0 && left > 0
      invariant off' + cnt' == off + cnt && InMemory(mem, v[off'..off' + cnt'])
      invariant left <= |Bytes(mem, v[off'..off' + cnt'])|
      invariant Bytes(mem, v[off'..off' + cnt'])[left..] == goal
      decreases cnt'
    {
      ghost var s := v[off'..off' + cnt'];
      assert s[0] == v[off'];
      if v[off'].len > left {
        Shorten(mem, s, left);
        v[off'] := IoVec(v[off'].base + left, v[off'].len - left);
        assert v[off'..off' + cnt'] == [IoVec(s[0].base + left, s[0].len - left)] + s[1..];
        return;
      } else {
        Skip(mem, s, left);
        TailInMemory(mem, s);
        assert s[1..] == v[off' + 1..off' + cnt'];
        left := left - v[off'].len;
        cnt' := cnt' - 1;
        off' := off' + 1;
      }
    }
    ghost var end := Bytes(mem, v[off'..off' + cnt']);
    NoBytes(mem, []);
    assert end[0..] == end;
  }

  lemma {:induction false} TailInMemory(mem: seq<byte>, s: seq<IoVec>)
    requires s != [] && InMemory(mem, s)
    ensures InMemory(mem, s[1..])
  {
  }

  lemma {:induction false} NoBytes(mem: seq<byte>, s: seq<IoVec>)
    requires s == []
    ensures InMemory(mem, s) && Bytes(mem, s) == []
  {
  }

  /** A position in a vector: the array, where it starts and how many entries are left. */
  datatype Cursor = Nowhere | Cursor(v: array<IoVec>, off: nat, cnt: nat)

  /** The cursor is at the start of the real vector or inside the scratch copy. */
  ghost predicate Points(c: Cursor, riov: array<IoVec>, tiov: array<IoVec>, mem: seq<byte>)
    reads riov, tiov
  {
    && c.Cursor?
    && ((c.v == riov && c.off == 0 && c.cnt == riov.Length) || c.v == tiov)
    && c.off + c.cnt <= c.v.Length && InMemory(mem, c.v[c.off..c.off + c.cnt])
  }

  ghost function Rest(c: Cursor, riov: array<IoVec>, tiov: array<IoVec>, mem: seq<byte>): seq<byte>
    requires Points(c, riov, tiov, mem)
    reads riov, tiov
  {
    Bytes(mem, c.v[c.off..c.off + c.cnt])
  }

  /** The real vector never changes; the cursor moves by exactly `advance` bytes. */
  method Advance(riov: array<IoVec>, advance: nat, c: Cursor, tiov: array<IoVec>, ghost mem: seq<byte>)
    returns (c': Cursor)
    requires riov != tiov && riov.Length <= tiov.Length && InMemory(mem, riov[..])
    requires c == Nowhere || Points(c, riov, tiov, mem)
    requires advance <= if c == Nowhere then |Bytes(mem, riov[..])| else |Rest(c, riov, tiov, mem)|
    modifies tiov
    ensures Points(c', riov, tiov, mem) && c' != Nowhere
    ensures Rest(c', riov, tiov, mem) ==
            (if c == Nowhere then Bytes(mem, riov[..]) else old(Rest(c, riov, tiov, mem)))[advance..]
  {
    hide InMemory, Bytes;
    c' := c;
    assert riov[0..0 + riov.Length] == riov[..];
    ghost var all := Bytes(mem, riov[..]);
    assert all[0..] == all;
    if c == Nowhere {
      c' := Cursor(riov, 0, riov.Length);
    }
    if advance > 0 {
      if c'.v == riov && c'.off == 0 && c'.cnt == riov.Length {
        Copy(riov, tiov);
        assert tiov[0..0 + riov.Length] == tiov[..riov.Length];
        c' := Cursor(tiov, 0, c'.cnt);
      }
      var off, cnt := Consume(c'.v, c'.off, c'.cnt, advance, mem);
      c' := Cursor(c'.v, off, cnt);
    }
  }

  // ---------------------------------------------------------------------------------------
  // The loop

  /** What one turn of the loop meets: the extra event ends the wait, or the write returns s. */
  datatype Answer = Interrupted | Wrote(s: int)

  /** The kernel's answer in turn i when n bytes are offered: never more than that. */
  type Kernel = (nat, nat) -> Answer

  predicate Partial(a: Answer, n: nat) { a.Wrote? && 0 < a.s < n }

  /** What becomes of n bytes from turn i on: how many of them are sent, and the last answer. */
  function Fate(kernel: Kernel, i: nat, n: nat): (nat, Answer)
    decreases n
  {
    var a := kernel(i, n);
    if Partial(a, n) then var (m, last) := Fate(kernel, i + 1, n - a.s); (a.s + m, last)
    else (if a.Wrote? && a.s > 0 then a.s else 0, a)
  }

  ghost predicate Honest(kernel: Kernel) {
    forall i, n :: kernel(i, n).Wrote? ==> kernel(i, n).s <= n
  }

  /** The result of the loop for the bytes sent and the last answer. */
  function Result(sent: nat, last: Answer): int {
    if last.Interrupted? || (last.s < 0 && sent == 0) then -1 else sent
  }

  /** The bytes sent are a prefix of what the vector stands for, as long as the kernel's answers
      add up to. */
  method WritevLoop(riov: array<IoVec>, tiov: array<IoVec>, kernel: Kernel, ghost mem: seq<byte>)
    returns (rv: int, ghost sent: seq<byte>)
    requires Honest(kernel)
    requires riov != tiov && riov.Length <= tiov.Length && InMemory(mem, riov[..])
    modifies tiov
    ensures sent <= Bytes(mem, riov[..])
    ensures var (n, last) := Fate(kernel, 0, |Bytes(mem, riov[..])|);
      |sent| == n && rv == Result(n, last)
  {
    hide InMemory, Bytes, Points, Honest, Rest, Fate;
    rv, sent := 0, [];
    var nbytes := IovBytes(riov, mem);
    ghost var whole := Bytes(mem, riov[..]);
    ghost var fate := Fate(kernel, 0, nbytes);
    var c := Advance(riov, 0, Nowhere, tiov, mem);
    var i := 0;
    while true
      invariant InMemory(mem, riov[..]) && Points(c, riov, tiov, mem) && c != Nowhere
      invariant Bytes(mem, riov[..]) == whole == sent + Rest(c, riov, tiov, mem)
      invariant nbytes == |Rest(c, riov, tiov, mem)| && rv == |sent|
      invariant fate == (|sent| + Fate(kernel, i, nbytes).0, Fate(kernel, i, nbytes).1)
      decreases nbytes
    {
      var answer := kernel(i, nbytes);
      FateTurn(kernel, i, nbytes);
      if answer == Interrupted {
        return -1, sent;
      }
      var s := answer.s;
      Bounded(kernel, i, nbytes);
      if s > 0 {
        rv := rv + s;
      }
      ghost var rest := Rest(c, riov, tiov, mem);
      if s > 0 && s < nbytes {
        nbytes := nbytes - s;
        c := Advance(riov, s, c, tiov, mem);
        assert sent + rest == (sent + rest[..s]) + rest[s..];
        sent := sent + rest[..s];
        i := i + 1;
        continue;
      }
      if s > 0 {
        sent := sent + rest[..s];
        assert rest[..s] == rest;
      }
      if s < 0 && rv == 0 {
        rv := -1;
      }
      break;
    }
  }

  lemma {:induction false} FateTurn(kernel: Kernel, i: nat, n: nat)
    ensures var a := kernel(i, n);
      && (Partial(a, n) ==>
            Fate(kernel, i, n) == (a.s + Fate(kernel, i + 1, n - a.s).0, Fate(kernel, i + 1, n - a.s).1))
      && (!Partial(a, n) ==> Fate(kernel, i, n) == (if a.Wrote? && a.s > 0 then a.s else 0, a))
  {
  }

  lemma {:induction false} Bounded(kernel: Kernel, i: nat, n: nat)
    requires Honest(kernel)
    ensures kernel(i, n).Wrote? ==> kernel(i, n).s <= n
  {
  }

  /** A kernel that takes something every time, with no extra event coming. */
  ghost predicate Patient(kernel: Kernel) {
    forall i, n :: kernel(i, n).Wrote? && (n > 0 ==> kernel(i, n).s > 0)
  }

  lemma {:induction false} FateFacts(kernel: Kernel, i: nat, n: nat)
    requires Honest(kernel)
    ensures var (sent, last) := Fate(kernel, i, n);
      && sent <= n
      && (Patient(kernel) ==> sent == n && last.Wrote? && (n > 0 ==> last.s > 0))
      && (sent == n > 0 ==> last.Wrote? && last.s > 0)
    decreases n
  {
    Bounded(kernel, i, n);
    if Partial(kernel(i, n), n) {
      FateFacts(kernel, i + 1, n - kernel(i, n).s);
    }
  }

  /** No extra event ever comes. */
  ghost predicate Undisturbed(kernel: Kernel) {
    forall i, n :: kernel(i, n).Wrote?
  }

  /** Something has been sent exactly when the first answer took something; without an extra event the
      last answer is one of write(2). */
  lemma {:induction false} FateStarts(kernel: Kernel, i: nat, n: nat)
    ensures var (sent, last) := Fate(kernel, i, n);
      && (sent > 0 <==> kernel(i, n).Wrote? && kernel(i, n).s > 0)
      && (sent > 0 && last.Interrupted? ==> Partial(kernel(i, n), n))
      && (sent == 0 ==> last == kernel(i, n))
      && (Undisturbed(kernel) ==> last.Wrote?)
    decreases n
  {
    if Partial(kernel(i, n), n) {
      FateStarts(kernel, i + 1, n - kernel(i, n).s);
    }
  }

  /** The call fails exactly when an extra event came or the first write failed.  Bytes are sent that
      the caller never hears of exactly when an extra event comes after a first write that took some
      of them, but not all; without an extra event none are lost. */
  lemma {:induction false} ResultExact(kernel: Kernel, n: nat)
    requires Honest(kernel)
    ensures var (sent, last) := Fate(kernel, 0, n);
      var rv := Result(sent, last);
      && (rv == sent || rv == -1)
      && (rv == -1 <==> last.Interrupted? || (kernel(0, n).Wrote? && kernel(0, n).s < 0))
      && (rv == -1 && sent > 0 <==> last.Interrupted? && Partial(kernel(0, n), n))
      && (Undisturbed(kernel) && sent > 0 ==> rv == sent)
      && (Patient(kernel) && n > 0 ==> rv == n)
  {
    FateFacts(kernel, 0, n);
    FateStarts(kernel, 0, n);
  }

  /** Three bytes, the first of which is sent before the extra event comes. */
  lemma {:induction false} LostCount()
    ensures var kernel: Kernel := (i: nat, n: nat) => if i == 0 && n > 0 then Wrote(1) else Interrupted;
      Honest(kernel) && Fate(kernel, 0, 3) == (1, Interrupted) && Result(1, Interrupted) == -1
  {
    var kernel: Kernel := (i: nat, n: nat) => if i == 0 && n > 0 then Wrote(1) else Interrupted;
    assert kernel(0, 3) == Wrote(1) && kernel(1, 2) == Interrupted;
    assert Fate(kernel, 1, 2) == (0, Interrupted);
  }

  /** The whole call: an empty or oversized vector is refused before anything is sent. */
  method WritevEv(riov: array<IoVec>, tiov: array<IoVec>, kernel: Kernel, ghost mem: seq<byte>)
    returns (rv: int, ghost sent: seq<byte>)
    requires Honest(kernel)
    requires riov != tiov && riov.Length <= tiov.Length && InMemory(mem, riov[..])
    modifies tiov
    ensures sent <= Bytes(mem, riov[..])
    ensures var (n, last) := Fate(kernel, 0, |Bytes(mem, riov[..])|);
      if 0 < riov.Length <= UIO_MAXIOV then |sent| == n && rv == Result(n, last) else sent == [] && rv == -1
  {
    if riov.Length <= 0 || riov.Length > UIO_MAXIOV {
      return -1, [];
    }
    rv, sent := WritevLoop(riov, tiov, kernel, mem);
  }

  const STACK_VECTORS: int := 32
  const VECTOR_BYTES: int := 16  // the size of a struct iovec with 64-bit addresses

  /** The length of the scratch vector for n entries: the local one, or one that is allocated when n
      is above the number of bytes, not of entries, of the local one. */
  function ScratchLength(n: int): int {
    if n > STACK_VECTORS * VECTOR_BYTES then UIO_MAXIOV else STACK_VECTORS
  }

  /** The scratch vector that the call provides is long enough, as the loop needs it, exactly for at
      most 32 and for more than 512 entries. */
  lemma {:induction false} ScratchSuffices(n: int)
    requires 0 < n <= UIO_MAXIOV
    ensures n <= ScratchLength(n) <==> n <= 32 || n > 512
  {
  }
}

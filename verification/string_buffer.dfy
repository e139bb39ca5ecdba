/** The growable byte buffer behind the output stream: an array with a zero tail. */
module StringBuffers {
  import opened Common

  const MIN_SIZE := 512
  const MAX_SIZE := 268435456

  // The next multiple of 512. It is beyond the limit only if n is.
  function RoundUp(n: nat): (r: nat)
    ensures n <= r < n + 512 && r % 512 == 0
    ensures r > MAX_SIZE <==> n > 268435456
  {
    (n + MIN_SIZE - 1) / MIN_SIZE * MIN_SIZE
  }

  function Zeros(n: nat): (z: seq<Byte>)
    ensures |z| == n && forall i :: 0 <= i < n ==> z[i] == 0
  {
    seq(n, _ => 0)
  }

  // What is left of a text that a formatter has put into m bytes: all but the last byte are
  // text, the last one ends it.
  function Truncated(text: seq<Byte>, m: nat): seq<Byte>
    requires m <= |text|
  {
    if m == 0 then [] else text[..m - 1] + [0]
  }

  class StringBuffer {
    var base: array?<Byte>
    var cap: nat
    var used: nat

    // The array and its size.
    ghost predicate Framed()
      reads this
    {
      && (base == null <==> cap == 0)
      && (base != null ==> base.Length == cap)
      && cap % MIN_SIZE == 0
      && cap <= MAX_SIZE
    }

    // The shape of the buffer, whatever its tail holds.
    ghost predicate Shape()
      reads this
    {
      Framed() && used <= cap
    }

    ghost function Contents(): seq<Byte>
      requires Shape()
      reads this, base
    {
      if base == null then [] else base[..used]
    }

    ghost predicate Valid()
      reads this, base
    {
      Shape() && forall i :: used <= i < cap ==> base[i] == 0
    }

    constructor ()
      ensures Valid() && Contents() == [] && cap == 0
    {
      base, cap, used := null, 0, 0;
    }

    // Grow to hold newCap bytes; `ok` says whether realloc would succeed. A failure changes
    // nothing, and growing clears the tail, whatever it held.
    method Reserve(newCap: nat, ok: bool) returns (status: int)
      requires Shape()
      modifies this`base, this`cap
      ensures Shape() && Contents() == old(Contents())
      ensures status == if old(cap) >= newCap then 0 else if newCap > 268435456 then -2 else if ok then 0 else -1
      ensures status != 0 || old(cap) >= newCap ==> base == old(base) && cap == old(cap)
      ensures status == 0 && old(cap) < newCap ==> Valid() && fresh(base) && cap == RoundUp(newCap)
      ensures status == 0 && old(cap) < newCap ==> newCap <= cap < newCap + 512 && cap % 512 == 0
    {
      status := 0;
      if cap < newCap {
        var rounded := RoundUp(newCap);
        if rounded <= MAX_SIZE {
          if ok {
            var kept: seq<Byte> := if base == null then [] else base[..used];
            base := new Byte[rounded](i requires 0 <= i => if i < |kept| then kept[i] else 0);
            cap := rounded;
            assert base[..used] == kept;
          } else {
            status := -1;
          }
        } else {
          status := -2;
        }
      }
    }

    // Whether n more bytes and their terminator fit, or can be made to.
    static predicate Room(cap: nat, used: nat, n: nat, ok: bool) {
      used + n + 1 <= cap || (ok && used + n + 1 <= 268435456)
    }

    // Append a text. A failure changes nothing.
    method Write(s: seq<Byte>, ok: bool) returns (n: int)
      requires Shape()
      modifies this, base
      ensures Shape() && (old(Valid()) ==> Valid())
      ensures n == if Room(old(cap), old(used), |s|, ok) then |s| else -1
      ensures Contents() == if n == -1 then old(Contents()) else old(Contents()) + s
      ensures n != -1 ==> used < cap
      ensures if n == -1 || old(used) + |s| < old(cap) then base == old(base) && cap == old(cap)
              else fresh(base) && cap == RoundUp(old(used) + |s| + 1)
    {
      if used + |s| + 1 > cap {
        var status := Reserve(used + |s| + 1, ok);
        if status != 0 {
          return -1;
        }
      }
      Copy(s);
      n := |s|;
    }

    method Copy(s: seq<Byte>)
      requires Shape() && used + |s| < cap
      modifies this`used, base
      ensures Shape() && (old(Valid()) ==> Valid())
      ensures Contents() == old(Contents()) + s && used == old(used) + |s|
    {
      forall i | 0 <= i < |s| {
        base[used + i] := s[i];
      }
      used := used + |s|;
    }

    // Set the size: bytes beyond it are cleared up to the old size; bytes that come in are
    // those of the tail, zero unless a failed Printf has left some, and zero beyond it. The
    // source ignores a reserve that fails, and the size is then past the end of the array.
    method Resize(size: nat, ok: bool)
      requires Shape()
      modifies this, base
      ensures Framed() && used == size && (old(Valid()) && Shape() ==> Valid())
      ensures Shape() <==> size <= old(cap) || (ok && size <= 268435456)
      ensures cap == if size <= old(cap) || !Shape() then old(cap) else RoundUp(size)
      ensures !Shape() ==> base == old(base) && (base != null ==> base[..] == old(base[..]))
      ensures size <= old(cap) ==> base == old(base) && forall i :: old(used) <= i < cap && size <= i ==> base[i] == old(base[i])
      ensures Shape() ==> (
        Contents() == if size <= old(used) then old(Contents())[..size]
                      else if size <= old(cap) then old(if base == null then [] else base[..size])
                      else old(Contents()) + Zeros(size - old(used)))
      ensures old(Valid()) && Shape() ==> (
        Contents() == if size <= old(used) then old(Contents())[..size] else old(Contents()) + Zeros(size - old(used)))
    {
      if size < used {
        forall i | size <= i < used {
          base[i] := 0;
        }
      } else if size > cap {
        var status := Reserve(size, ok);
      }
      used := size;
    }

    // Drop the first n bytes.
    method Consume(n: nat)
      requires Shape() && n <= used
      modifies this, base
      ensures Shape() && (old(Valid()) ==> Valid())
      ensures Contents() == old(Contents())[n..] && cap == old(cap)
    {
      if n > 0 {
        var rest := base[n..used];
        forall i | 0 <= i < used - n {
          base[i] := rest[i];
        }
        ghost var moved := base[..used - n];
        assert moved == rest;
        Resize(used - n, true);
      }
    }

    // Nothing is left, and the whole array is zero again, whatever the tail held.
    method Clear()
      requires Shape()
      modifies this`used, base
      ensures Valid() && Contents() == [] && cap == old(cap)
    {
      if base != null {
        forall i | 0 <= i < cap {
          base[i] := 0;
        }
      }
      used := 0;
    }

    // Take one more byte from the stream when the buffer is full, or whenever the stream asks.
    // The source writes the byte even when it could not reserve room for it; without room the
    // byte falls outside the array, and so does the size.
    method Overflow(c: Byte, ok: bool)
      requires Shape()
      modifies this, base
      ensures Framed() && used == old(used) + 1 && (old(Valid()) && Shape() ==> Valid())
      ensures Shape() <==> old(used) < old(cap) || (ok && old(cap) < 268435456)
      ensures if Shape() then Contents() == old(Contents()) + [c]
              else base == old(base) && (base != null ==> base[..] == old(base[..]))
    {
      var status := Reserve(cap + 1, ok);
      if used < cap {
        base[used] := c;
      }
      used := used + 1;
    }

    // vsnprintf into the unused bytes: the text, or as much of it as leaves room for a zero.
    method Format(text: seq<Byte>) returns (n: nat)
      requires Shape()
      modifies base
      ensures n == |text| && Contents() == old(Contents())
      ensures |text| < cap - used ==> base[..used + |text|] == old(Contents()) + text && base[used + |text|] == 0
      ensures |text| < cap - used ==> forall i :: used + |text| < i < cap ==> base[i] == old(base[i])
      ensures |text| >= cap - used && base != null ==> base[used..] == Truncated(text, cap - used)
    {
      n := |text|;
      if base != null {
        var m := cap - used;
        var part := if n < m then text + [0] else Truncated(text, m);
        forall i | 0 <= i < |part| {
          base[used + i] := part[i];
        }
      }
    }

    // Append a formatted text, growing if it did not fit the first time. A failure leaves the
    // contents, but what was formatted stays in the tail: the tail is zero after it exactly
    // when that part of the text is.
    method Printf(text: seq<Byte>, ok: bool) returns (n: int)
      requires Shape()
      modifies this, base
      ensures Shape()
      ensures n == if Fits(old(cap), old(used), text, ok) then |text| else -1
      ensures n != -1 ==> Contents() == old(Contents()) + text && (old(Valid()) ==> Valid())
      ensures n == -1 ==> Contents() == old(Contents()) && base == old(base) && cap == old(cap)
      ensures n == -1 && base != null ==> base[used..] == Truncated(text, cap - used)
      ensures n == -1 ==> (Valid() <==> forall i :: 0 <= i < cap - used - 1 ==> text[i] == 0)
    {
      n := FormatUntilFit(text, ok);
      if n == -1 {
        TailIsText(text);
      }
    }

    static predicate Fits(cap: nat, used: nat, text: seq<Byte>, ok: bool) {
      used + |text| < cap || (ok && used + |text| + 2 <= 268435456)
    }

    // The loop ends within two rounds.
    method FormatUntilFit(text: seq<Byte>, ok: bool) returns (n: int)
      requires Shape()
      modifies this, base
      ensures Shape()
      ensures n == if Fits(old(cap), old(used), text, ok) then |text| else -1
      ensures n != -1 ==> Contents() == old(Contents()) + text && (old(Valid()) ==> Valid())
      ensures n == -1 ==> Contents() == old(Contents()) && base == old(base) && cap == old(cap)
      ensures n == -1 ==> |text| >= cap - used && (base != null ==> base[used..] == Truncated(text, cap - used))
    {
      ghost var rounds := 0;
      while true
        invariant Shape() && Contents() == old(Contents()) && used == old(used)
        invariant rounds <= 1
        invariant rounds == 0 ==> unchanged(this) && (base != null ==> base[..] == old(base[..]))
        invariant rounds == 1 ==> (
          && Valid() && fresh(base) && |text| < cap - used
          && ok && used + |text| + 2 <= 268435456 && |text| >= old(cap) - used)
        decreases 2 - rounds
      {
        rounds := rounds + 1;
        var m := cap - used;
        n := Format(text);
        if n < m {
          used := used + n;
          return n;
        }
        m := n + 1;
        if used + m + 1 > cap {
          var status := Reserve(used + m + 1, ok);
          if status != 0 {
            return -1;
          }
        }
      }
    }

    lemma {:induction false} TailIsText(text: seq<Byte>)
      requires Shape() && |text| >= cap - used
      requires base != null ==> base[used..] == Truncated(text, cap - used)
      ensures Valid() <==> forall i :: 0 <= i < cap - used - 1 ==> text[i] == 0
    {
      if base != null {
        var m := cap - used;
        assert forall i :: used <= i < cap ==> base[i] == base[used..][i - used];
        assert forall i :: 0 <= i < m - 1 ==> base[used + i] == text[i];
      }
    }
  }

  // How text that was never appended comes into the contents: a Printf that fails, and a
  // Resize that then grows over its tail.
  method LeftoverText() returns (b: StringBuffer, n: int)
    ensures fresh(b) && b.Shape() && !b.Valid() && n == -1
    ensures b.Contents() == [1, 65, 65]
  {
    b := new StringBuffer();
    var _ := b.Write([1], true);
    assert b.cap == 512;
    var text := seq(600, _ => 65);
    n := b.Printf(text, false);
    ghost var tail := b.base[1..];
    assert tail == Truncated(text, 511);
    assert b.base[1] == tail[0] && b.base[2] == tail[1] && b.base[3] == tail[2];
    b.Resize(3, true);
    assert b.base[3] == 65;
  }

  // How the put pointer comes to lie past the end: a byte, or a size, that an empty buffer has
  // no room for and cannot reserve any for.
  method PastTheEnd() returns (b: StringBuffer, c: StringBuffer)
    ensures fresh(b) && !b.Shape() && b.cap == 0 && b.used == 1
    ensures fresh(c) && !c.Shape() && c.cap == 0 && c.used == 10
  {
    b := new StringBuffer();
    b.Overflow(65, false);
    c := new StringBuffer();
    c.Resize(10, false);
  }
}

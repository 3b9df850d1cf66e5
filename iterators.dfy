/** euclidean_vector's private Iterator: a position in the element buffer. The C++
    class holds a raw pointer into the buffer; here that pointer is the buffer together
    with an integer position, so pointer arithmetic is integer arithmetic on the
    position and pointer comparison is integer comparison. */
module Iterators {

  class Iterator {
    /** The buffer the pointer points into. */
    const buf: array<real>
    /** The offset of the pointer from the start of the buffer. */
    var pos: int

    /** Iterator(pointer_type p): points at position p of buf. */
    constructor (buf: array<real>, p: int)
      ensures this.buf == buf && pos == p
    {
      this.buf := buf;
      pos := p;
    }

    /** operator*, used to read: the element under the iterator. */
    function Deref(): (r: real)
      reads this, buf
      requires 0 <= pos < buf.Length
      ensures r == buf[pos]
    {
      buf[pos]
    }

    /** operator*, used to write (*it = x): stores x under the iterator and changes
        nothing else. */
    method Store(x: real)
      requires 0 <= pos < buf.Length
      modifies buf
      ensures buf[..] == old(buf[..])[pos := x]
    {
      buf[pos] := x;
    }

    /** Prefix operator++: moves one position forward. */
    method Increment()
      modifies this
      ensures pos == old(pos) + 1
    {
      pos := pos + 1;
    }

    /** Postfix operator++: moves one position forward and returns an iterator at the
        old position. */
    method PostIncrement() returns (was: Iterator)
      modifies this
      ensures fresh(was) && was.buf == buf && was.pos == old(pos)
      ensures pos == old(pos) + 1
    {
      was := new Iterator(buf, pos);
      Increment();
    }

    /** Prefix operator--: moves one position back. */
    method Decrement()
      modifies this
      ensures pos == old(pos) - 1
    {
      pos := pos - 1;
    }

    /** Postfix operator--: moves one position back and returns an iterator at the old
        position. */
    method PostDecrement() returns (was: Iterator)
      modifies this
      ensures fresh(was) && was.buf == buf && was.pos == old(pos)
      ensures pos == old(pos) - 1
    {
      was := new Iterator(buf, pos);
      Decrement();
    }

    /** operator+=: moves offset positions (backwards when offset is negative). */
    method AddAssign(offset: int)
      modifies this
      ensures pos == old(pos) + offset
    {
      pos := pos + offset;
    }

    /** operator-=: written as += -offset. */
    method SubAssign(offset: int)
      modifies this
      ensures pos == old(pos) - offset
    {
      AddAssign(-offset);
    }

    /** operator+(offset): a new iterator offset positions on; this one is unchanged. */
    method Plus(offset: int) returns (r: Iterator)
      ensures fresh(r) && r.buf == buf && r.pos == pos + offset
    {
      r := new Iterator(buf, pos);
      r.AddAssign(offset);
    }

    /** operator-(offset): a new iterator offset positions back; this one is unchanged. */
    method Minus(offset: int) returns (r: Iterator)
      ensures fresh(r) && r.buf == buf && r.pos == pos - offset
    {
      r := new Iterator(buf, pos);
      r.SubAssign(offset);
    }

    /** operator-(Iterator): how many positions right lies behind this one. */
    function Difference(right: Iterator): (d: int)
      reads this, right
      requires buf == right.buf
      ensures pos == right.pos + d
    {
      pos - right.pos
    }

    /** operator[](offset), used to read: the element offset positions on, reached by
        dereferencing *this + offset. */
    method Subscript(offset: int) returns (r: real)
      requires 0 <= pos + offset < buf.Length
      ensures r == buf[pos + offset]
    {
      var at := Plus(offset);
      r := at.Deref();
    }

    /** operator<: pointer order, which is position order within one buffer. */
    function Less(right: Iterator): (b: bool)
      reads this, right
      requires buf == right.buf
      ensures b <==> pos < right.pos
    {
      pos < right.pos
    }

    /** operator>: defined as right < this. */
    function Greater(right: Iterator): (b: bool)
      reads this, right
      requires buf == right.buf
      ensures b <==> pos > right.pos
    {
      right.Less(this)
    }

    /** operator<=: defined as !(right < this). */
    function LessEq(right: Iterator): (b: bool)
      reads this, right
      requires buf == right.buf
      ensures b <==> pos <= right.pos
    {
      !right.Less(this)
    }

    /** operator>=: defined as !(this < right). */
    function GreaterEq(right: Iterator): (b: bool)
      reads this, right
      requires buf == right.buf
      ensures b <==> pos >= right.pos
    {
      !Less(right)
    }

    /** operator==: the two pointers are equal, that is the same buffer and the same
        position. */
    function Equal(right: Iterator): (b: bool)
      reads this, right
      ensures b <==> buf == right.buf && pos == right.pos
    {
      buf == right.buf && pos == right.pos
    }

    /** operator!=: defined as !(a == b). */
    function NotEqual(right: Iterator): (b: bool)
      reads this, right
      ensures b <==> !(buf == right.buf && pos == right.pos)
    {
      !Equal(right)
    }
  }

  /** The friend operator+(offset, it): a new iterator offset positions past it. */
  method OffsetPlus(offset: int, it: Iterator) returns (r: Iterator)
    ensures fresh(r) && r.buf == it.buf && r.pos == it.pos + offset
  {
    r := new Iterator(it.buf, it.pos);
    r.AddAssign(offset);
  }

  /** Moving n on and then n back returns to the starting position: (it + n) - n == it. */
  method PlusThenMinus(it: Iterator, n: int) returns (same: bool)
    ensures same
  {
    var on := it.Plus(n);
    var back := on.Minus(n);
    same := back.Equal(it);
  }

  /** Moving n on and then measuring back to the start gives n: (it + n) - it == n, and
      offset + it is the same position as it + offset. */
  method PlusThenDifference(it: Iterator, n: int) returns (d: int, agree: bool)
    ensures d == n && agree
  {
    var on := it.Plus(n);
    d := on.Difference(it);
    var flipped := OffsetPlus(n, it);
    agree := flipped.Equal(on);
  }

  /** The order operators agree with one another as integer order does: exactly one of
      <, ==, > holds, <= is < or ==, and >= is > or ==. */
  lemma OrderTrichotomy(a: Iterator, b: Iterator)
    requires a.buf == b.buf
    ensures a.Less(b) || a.Equal(b) || a.Greater(b)
    ensures !(a.Less(b) && a.Greater(b)) && !(a.Less(b) && a.Equal(b))
    ensures !(a.Equal(b) && a.Greater(b))
    ensures a.LessEq(b) <==> a.Less(b) || a.Equal(b)
    ensures a.GreaterEq(b) <==> a.Greater(b) || a.Equal(b)
    ensures a.Greater(b) <==> b.Less(a)
    ensures a.NotEqual(b) <==> !a.Equal(b)
  {
  }
}

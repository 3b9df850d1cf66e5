/** comp6771::euclidean_vector: a heap buffer of dim elements with a memoised norm.
    `altered` says the memo is stale; `cache` is the memo, meaningful only when
    `altered` is false. Every vector owns its buffer: copies allocate a new one and a
    move hands the buffer over and gives the source a new empty one. */
module EuclideanVectors {
  import opened Errors
  import opened VectorMath
  import opened Iterators

  /** make_unique<double[]>(n) followed by the constructor's fill loop: a new buffer of
      n elements, each m. */
  method NewBuffer(n: int, m: real) returns (a: array<real>)
    requires 0 <= n
    ensures fresh(a) && a[..] == Constant(n, m)
  {
    a := new real[n];
    var i := 0;
    while i < n
      invariant 0 <= i <= n
      invariant forall j :: 0 <= j < i ==> a[j] == m
    {
      a[i] := m;
      i := i + 1;
    }
  }

  /** std::copy of a whole source range into a buffer of the same length. */
  method CopyInto(src: seq<real>, dst: array<real>)
    requires |src| == dst.Length
    modifies dst
    ensures dst[..] == src
  {
    var i := 0;
    while i < |src|
      invariant 0 <= i <= |src|
      invariant forall j :: 0 <= j < i ==> dst[j] == src[j]
    {
      dst[i] := src[i];
      i := i + 1;
    }
  }

  class EuclideanVector {
    /** magnitude_: the element buffer. */
    var data: array<real>
    /** dim_: the number of elements. */
    var dim: int
    /** altered_: the memoised norm is stale. */
    var altered: bool
    /** cache_: the memoised norm. It has no initialiser in the source; the
        constructors that do not set it leave it unconstrained here too. */
    var cache: real

    /** The buffer holds exactly dim elements. */
    ghost predicate Valid()
      reads this
    {
      data.Length == dim
    }

    /** The elements, in order. */
    function Elements(): seq<real>
      reads this, data
    {
      data[..]
    }

    /** The memo is trustworthy: when it is not marked stale it holds the norm of the
        current elements. Every modelled operation keeps this except unit (see Unit).
        In the source a double& from the non-const [] or at, written after a later
        euclidean_norm, breaks it too; the model performs such a write at once. */
    ghost predicate CacheCoherent()
      reads this, data
    {
      !altered ==> cache == Norm(data[..])
    }

    /** euclidean_vector(): delegates to (1, 0), one element 0. */
    constructor ()
      ensures Valid() && fresh(data) && Elements() == [0.0]
      ensures altered && CacheCoherent()
    {
      var buffer := NewBuffer(1, 0.0);
      data := buffer;
      dim := 1;
      altered := true;
    }

    /** euclidean_vector(int dim): delegates to (dim, 0), dim zeros. */
    constructor OfDimension(n: int)
      requires 0 <= n
      ensures Valid() && fresh(data) && dim == n && Elements() == Constant(n, 0.0)
      ensures altered && CacheCoherent()
    {
      var buffer := NewBuffer(n, 0.0);
      data := buffer;
      dim := n;
      altered := true;
    }

    /** euclidean_vector(int dim, double mag): dim elements, every one mag. */
    constructor Filled(n: int, m: real)
      requires 0 <= n
      ensures Valid() && fresh(data) && dim == n && Elements() == Constant(n, m)
      ensures altered && CacheCoherent()
    {
      var buffer := NewBuffer(n, m);
      data := buffer;
      dim := n;
      altered := true;
    }

    /** euclidean_vector(start, end) over a std::vector<double>: delegates to
        (end - start, 0) and copies the range in order. The source vector, being const,
        is a value here. */
    constructor FromRange(src: seq<real>, first: int, last: int)
      requires 0 <= first <= last <= |src|
      ensures Valid() && fresh(data) && Elements() == src[first..last]
      ensures altered && CacheCoherent()
    {
      var buffer := NewBuffer(last - first, 0.0);
      data := buffer;
      dim := last - first;
      altered := true;
      new;
      CopyInto(src[first..last], data);
    }

    /** euclidean_vector(std::initializer_list<double>): delegates to (size, 0) and
        copies the list in order. */
    constructor FromList(list: seq<real>)
      ensures Valid() && fresh(data) && Elements() == list
      ensures altered && CacheCoherent()
    {
      var buffer := NewBuffer(|list|, 0.0);
      data := buffer;
      dim := |list|;
      altered := true;
      new;
      CopyInto(list, data);
    }

    /** The copy constructor: delegates to (other.dim), then swaps the memo fields with
        its (const, but mutable-field) source and copies the elements into the new
        buffer. The copy takes over the source's memo; the source is left marked
        stale, holding the copy's uninitialised cache. */
    constructor Copy(other: EuclideanVector)
      requires other.Valid()
      modifies other`altered, other`cache
      ensures Valid() && fresh(data) && dim == other.dim
      ensures Elements() == other.Elements() == old(other.Elements())
      ensures altered == old(other.altered) && cache == old(other.cache)
      ensures other.altered
      ensures old(other.CacheCoherent()) ==> CacheCoherent()
    {
      var buffer := NewBuffer(other.dim, 0.0);
      data := buffer;
      dim := other.dim;
      altered := true;
      new;
      var flag := altered;
      altered := other.altered;
      other.altered := flag;
      var memo := cache;
      cache := other.cache;
      other.cache := memo;
      CopyInto(other.data[..], data);
    }

    /** The move constructor: takes the buffer, dimension and memo, and resets the
        source to dimension 0, stale, cache 0, with a new zero-length buffer. */
    constructor Move(other: EuclideanVector)
      requires other.Valid()
      modifies other
      ensures Valid() && data == old(other.data) && dim == old(other.dim)
      ensures Elements() == old(other.Elements())
      ensures altered == old(other.altered) && cache == old(other.cache)
      ensures other.Valid() && fresh(other.data) && other.dim == 0 && other.Elements() == []
      ensures other.altered && other.cache == 0.0
      ensures old(other.CacheCoherent()) ==> CacheCoherent()
      ensures other.CacheCoherent()
    {
      data := other.data;
      dim := other.dim;
      altered := other.altered;
      cache := other.cache;
      new;
      other.data := new real[0];
      other.dim := 0;
      other.altered := true;
      other.cache := 0.0;
    }

    /** swap: exchanges all four fields with other (nothing changes when other is this). */
    method Swap(other: EuclideanVector)
      modifies this, other
      ensures data == old(other.data) && other.data == old(data)
      ensures dim == old(other.dim) && other.dim == old(dim)
      ensures altered == old(other.altered) && other.altered == old(altered)
      ensures cache == old(other.cache) && other.cache == old(cache)
    {
      var d := dim;
      dim := other.dim;
      other.dim := d;
      var buffer := data;
      data := other.data;
      other.data := buffer;
      var flag := altered;
      altered := other.altered;
      other.altered := flag;
      var memo := cache;
      cache := other.cache;
      other.cache := memo;
    }

    /** Copy assignment, euclidean_vector(right).swap(*this): this ends with a new
        buffer holding right's elements and right's memo; right, when it is another
        vector, keeps its elements and buffer and is left marked stale. Assigning a
        vector to itself leaves its elements and memo as they were. */
    method CopyAssign(right: EuclideanVector)
      requires right.Valid()
      modifies this, right
      ensures Valid() && fresh(data) && dim == old(right.dim)
      ensures Elements() == old(right.Elements())
      ensures altered == old(right.altered) && cache == old(right.cache)
      ensures right != this ==> right.Valid() && right.data == old(right.data)
      ensures right != this ==> right.Elements() == old(right.Elements()) && right.altered
      ensures old(right.CacheCoherent()) ==> CacheCoherent()
    {
      var temporary := new EuclideanVector.Copy(right);
      temporary.Swap(this);
    }

    /** Move assignment: copy-constructs from right (an lvalue inside the operator),
        swaps the copy in, then resets right to dimension 0, stale, cache 0 with a new
        empty buffer. So this gets a new buffer holding right's old elements, and a
        vector moved into itself ends at dimension 0. */
    method MoveAssign(right: EuclideanVector)
      requires right.Valid()
      modifies this, right
      ensures right.Valid() && fresh(right.data) && right.dim == 0 && right.Elements() == []
      ensures right.altered && right.cache == 0.0
      ensures Valid() && CacheCoherent() == (right == this || old(right.CacheCoherent()))
      ensures right != this ==> fresh(data) && Elements() == old(right.Elements())
      ensures right != this ==> altered == old(right.altered) && cache == old(right.cache)
      ensures right == this ==> dim == 0 && Elements() == []
    {
      var temporary := new EuclideanVector.Copy(right);
      temporary.Swap(this);
      right.dim := 0;
      right.altered := true;
      right.cache := 0.0;
      right.data := new real[0];
    }

    /** Unary operator+: a copy (which takes over this vector's memo by the copy
        constructor's swap). */
    method Positive() returns (r: EuclideanVector)
      requires Valid()
      modifies this`altered, this`cache
      ensures fresh(r) && r.Valid() && fresh(r.data) && r.Elements() == Elements()
      ensures Elements() == old(Elements()) && altered
      ensures r.altered == old(altered) && r.cache == old(cache)
      ensures old(CacheCoherent()) ==> r.CacheCoherent()
    {
      r := new EuclideanVector.Copy(this);
    }

    /** Unary operator-: a copy multiplied by -1 in place, then copied out (the compound
        operator returns a reference, so the return value is copy-constructed). */
    method Negative() returns (r: EuclideanVector)
      requires Valid()
      modifies this`altered, this`cache
      ensures fresh(r) && r.Valid() && fresh(r.data)
      ensures r.Elements() == Scale(Elements(), -1.0)
      ensures Elements() == old(Elements()) && altered
      ensures r.altered && r.CacheCoherent()
    {
      var temporary := new EuclideanVector.Copy(this);
      temporary.MulAssign(-1.0);
      r := new EuclideanVector.Copy(temporary);
    }

    /** operator+=: fails with the two dimensions when they differ, before touching any
        element; otherwise adds right's elements one by one and marks the memo stale.
        The loop reads right's element i before writing element i, so v += v doubles
        every element. */
    method AddAssign(right: EuclideanVector) returns (o: Outcome)
      requires Valid() && right.Valid()
      modifies this`altered, data
      ensures o.Fail? <==> dim != right.dim
      ensures o.Fail? ==> o.error == DimensionMismatch(dim, right.dim)
      ensures o.Fail? ==> unchanged(data) && altered == old(altered)
      ensures o.Pass? ==> Elements() == Add(old(Elements()), old(right.Elements())) && altered
      ensures right.data != data ==> right.Elements() == old(right.Elements())
      ensures old(CacheCoherent()) ==> CacheCoherent()
    {
      if dim != right.dim {
        return Fail(DimensionMismatch(dim, right.dim));
      }
      var i := 0;
      while i < dim
        invariant 0 <= i <= dim
        invariant forall j :: 0 <= j < i ==> data[j] == old(data[j]) + old(right.data[j])
        invariant forall j :: i <= j < dim ==> data[j] == old(data[j])
        invariant forall j :: i <= j < dim ==> right.data[j] == old(right.data[j])
      {
        data[i] := data[i] + right.data[i];
        i := i + 1;
      }
      UpdateAltered();
      o := Pass;
    }

    /** operator-=: as operator+= with subtraction; v -= v gives zeros. */
    method SubAssign(right: EuclideanVector) returns (o: Outcome)
      requires Valid() && right.Valid()
      modifies this`altered, data
      ensures o.Fail? <==> dim != right.dim
      ensures o.Fail? ==> o.error == DimensionMismatch(dim, right.dim)
      ensures o.Fail? ==> unchanged(data) && altered == old(altered)
      ensures o.Pass? ==> Elements() == Sub(old(Elements()), old(right.Elements())) && altered
      ensures right.data != data ==> right.Elements() == old(right.Elements())
      ensures old(CacheCoherent()) ==> CacheCoherent()
    {
      if dim != right.dim {
        return Fail(DimensionMismatch(dim, right.dim));
      }
      var i := 0;
      while i < dim
        invariant 0 <= i <= dim
        invariant forall j :: 0 <= j < i ==> data[j] == old(data[j]) - old(right.data[j])
        invariant forall j :: i <= j < dim ==> data[j] == old(data[j])
        invariant forall j :: i <= j < dim ==> right.data[j] == old(right.data[j])
      {
        data[i] := data[i] - right.data[i];
        i := i + 1;
      }
      UpdateAltered();
      o := Pass;
    }

    /** operator*=: multiplies every element in place and marks the memo stale; it
        cannot fail. */
    method MulAssign(multiple: real)
      requires Valid()
      modifies this`altered, data
      ensures Elements() == Scale(old(Elements()), multiple)
      ensures altered && CacheCoherent()
    {
      var i := 0;
      while i < dim
        invariant 0 <= i <= dim
        invariant forall j :: 0 <= j < i ==> data[j] == old(data[j]) * multiple
        invariant forall j :: i <= j < dim ==> data[j] == old(data[j])
      {
        data[i] := data[i] * multiple;
        i := i + 1;
      }
      assert forall j :: 0 <= j < dim ==> Elements()[j] == Scale(old(Elements()), multiple)[j];
      UpdateAltered();
    }

    /** operator/=: fails on a divisor of exactly 0, changing nothing; otherwise
        multiplies by the reciprocal, which divides every element. */
    method DivAssign(divisor: real) returns (o: Outcome)
      requires Valid()
      modifies this`altered, data
      ensures o.Fail? <==> divisor == 0.0
      ensures o.Fail? ==> o.error == DivisionByZero && unchanged(data) && altered == old(altered)
      ensures o.Pass? ==> Elements() == Scale(old(Elements()), 1.0 / divisor) && altered
      ensures o.Pass? ==> Elements() == DivideAll(old(Elements()), divisor)
      ensures old(CacheCoherent()) ==> CacheCoherent()
    {
      if divisor == 0.0 {
        return Fail(DivisionByZero);
      }
      MulAssign(1.0 / divisor);
      ScaleByReciprocal(old(Elements()), divisor);
      o := Pass;
    }

    /** The const operator[]: element i, unchecked (an index outside the buffer is
        undefined behaviour in the source, so it is a precondition). */
    function Subscript(i: int): (r: real)
      reads this, data
      requires Valid() && 0 <= i < dim
      ensures r == Elements()[i]
    {
      data[i]
    }

    /** The non-const operator[] used to read: marks the memo stale even though nothing
        is written, and yields element i. */
    method MutableSubscript(i: int) returns (r: real)
      requires Valid() && 0 <= i < dim
      modifies this`altered
      ensures r == Elements()[i] && altered
    {
      UpdateAltered();
      r := data[i];
    }

    /** The non-const operator[] used to write (v[i] = x): marks the memo stale and
        stores x at i. */
    method SetSubscript(i: int, x: real)
      requires Valid() && 0 <= i < dim
      modifies this`altered, data
      ensures Elements() == old(Elements())[i := x] && altered
      ensures CacheCoherent()
    {
      UpdateAltered();
      data[i] := x;
    }

    /** The const at: fails with the index exactly when it is negative or not below
        dim; otherwise element i. It never touches the memo. */
    function At(i: int): (r: Result<real>)
      reads this, data
      requires Valid()
      ensures r.Failure? <==> i < 0 || i >= dim
      ensures r.Failure? ==> r.error == OutOfRange(i)
      ensures r.Success? ==> r.value == Elements()[i]
    {
      if i < 0 || i >= dim then Failure(OutOfRange(i)) else Success(data[i])
    }

    /** The non-const at used to read: the same checks and value as the const at, and
        the memo is marked stale only once the check has passed. */
    method MutableAt(i: int) returns (r: Result<real>)
      requires Valid()
      modifies this`altered
      ensures r == At(i)
      ensures altered == (old(altered) || r.Success?)
    {
      if i < 0 || i >= dim {
        return Failure(OutOfRange(i));
      }
      UpdateAltered();
      r := Success(data[i]);
    }

    /** The non-const at used to write (v.at(i) = x): fails with the index, changing
        nothing, when it is out of range; otherwise marks the memo stale and stores x. */
    method SetAt(i: int, x: real) returns (o: Outcome)
      requires Valid()
      modifies this`altered, data
      ensures o.Fail? <==> i < 0 || i >= dim
      ensures o.Fail? ==> o.error == OutOfRange(i) && unchanged(data) && altered == old(altered)
      ensures o.Pass? ==> Elements() == old(Elements())[i := x] && altered
      ensures old(CacheCoherent()) ==> CacheCoherent()
    {
      if i < 0 || i >= dim {
        return Fail(OutOfRange(i));
      }
      UpdateAltered();
      data[i] := x;
      o := Pass;
    }

    /** dimensions(): the number of elements. */
    function Dimensions(): (d: int)
      reads this, data
      requires Valid()
      ensures d == |Elements()|
    {
      dim
    }

    /** update_altered(): marks the memo stale and changes nothing else. */
    method UpdateAltered()
      modifies this`altered
      ensures altered
    {
      altered := true;
    }

    /** operator std::vector<double>: a new container of dimensions() elements holding
        the elements in order. */
    method ToVector() returns (a: array<real>)
      requires Valid()
      ensures fresh(a) && a[..] == Elements()
    {
      a := NewBuffer(dim, 0.0);
      CopyInto(data[..], a);
    }

    /** operator std::list<double>: the elements in order, as a new sequence. */
    method ToList() returns (l: seq<real>)
      requires Valid()
      ensures l == Elements()
    {
      l := [];
      var i := 0;
      while i < dim
        invariant 0 <= i <= dim
        invariant l == data[..i]
      {
        l := l + [data[i]];
        i := i + 1;
      }
    }

    /** begin(): an iterator at position 0 of the buffer. */
    method Begin() returns (it: Iterator)
      ensures fresh(it) && it.buf == data && it.pos == 0
    {
      it := new Iterator(data, 0);
    }

    /** end(): an iterator at position dim of the buffer, one past the last element. */
    method End() returns (it: Iterator)
      ensures fresh(it) && it.buf == data && it.pos == dim
    {
      it := new Iterator(data, dim);
    }
  }

  /** end() - begin() is the number of elements. */
  method Span(v: EuclideanVector) returns (d: int)
    requires v.Valid()
    ensures d == v.Dimensions()
  {
    var first := v.Begin();
    var last := v.End();
    d := last.Difference(first);
  }

  /** operator==: false when the dimensions differ; otherwise compares the elements in
      order and stops at the first pair that differs. */
  method Equals(left: EuclideanVector, right: EuclideanVector) returns (b: bool)
    requires left.Valid() && right.Valid()
    ensures b <==> left.Elements() == right.Elements()
  {
    if left.dim != right.dim {
      return false;
    }
    var i := 0;
    while i < left.dim
      invariant 0 <= i <= left.dim
      invariant left.data[..i] == right.data[..i]
    {
      if left.data[i] != right.data[i] {
        assert left.Elements()[i] != right.Elements()[i];
        return false;
      }
      assert left.data[..i + 1] == left.data[..i] + [left.data[i]];
      assert right.data[..i + 1] == right.data[..i] + [right.data[i]];
      i := i + 1;
    }
    assert left.data[..] == left.data[..left.dim];
    assert right.data[..] == right.data[..right.dim];
    b := true;
  }

  /** operator!=: the negation of operator==. */
  method NotEquals(left: EuclideanVector, right: EuclideanVector) returns (b: bool)
    requires left.Valid() && right.Valid()
    ensures b <==> left.Elements() != right.Elements()
  {
    var same := Equals(left, right);
    b := !same;
  }

  /** Binary operator+: copies left, adds right in place (failing with both dimensions
      when they differ) and copies the result out. left keeps its elements but is left
      marked stale by the copy constructor's swap; right keeps its elements. */
  method Sum(left: EuclideanVector, right: EuclideanVector) returns (r: Result<EuclideanVector>)
    requires left.Valid() && right.Valid()
    modifies left`altered, left`cache
    ensures r.Failure? <==> left.dim != right.dim
    ensures r.Failure? ==> r.error == DimensionMismatch(left.dim, right.dim)
    ensures r.Success? ==> fresh(r.value) && fresh(r.value.data) && r.value.Valid()
    ensures r.Success? ==> r.value.Elements() == Add(old(left.Elements()), old(right.Elements()))
    ensures r.Success? ==> r.value.altered && r.value.CacheCoherent()
    ensures left.Elements() == old(left.Elements()) && left.altered
    ensures right.Elements() == old(right.Elements())
  {
    var vec := new EuclideanVector.Copy(left);
    var o := vec.AddAssign(right);
    if o.Fail? {
      return Failure(o.error);
    }
    var result := new EuclideanVector.Copy(vec);
    r := Success(result);
  }

  /** Binary operator-: as operator+ with subtraction. */
  method Difference(left: EuclideanVector, right: EuclideanVector) returns (r: Result<EuclideanVector>)
    requires left.Valid() && right.Valid()
    modifies left`altered, left`cache
    ensures r.Failure? <==> left.dim != right.dim
    ensures r.Failure? ==> r.error == DimensionMismatch(left.dim, right.dim)
    ensures r.Success? ==> fresh(r.value) && fresh(r.value.data) && r.value.Valid()
    ensures r.Success? ==> r.value.Elements() == Sub(old(left.Elements()), old(right.Elements()))
    ensures r.Success? ==> r.value.altered && r.value.CacheCoherent()
    ensures left.Elements() == old(left.Elements()) && left.altered
    ensures right.Elements() == old(right.Elements())
  {
    var vec := new EuclideanVector.Copy(left);
    var o := vec.SubAssign(right);
    if o.Fail? {
      return Failure(o.error);
    }
    var result := new EuclideanVector.Copy(vec);
    r := Success(result);
  }

  /** operator*(vec, num): copies vec, multiplies in place and copies the result out. */
  method Product(vec: EuclideanVector, num: real) returns (r: EuclideanVector)
    requires vec.Valid()
    modifies vec`altered, vec`cache
    ensures fresh(r) && fresh(r.data) && r.Valid()
    ensures r.Elements() == Scale(vec.Elements(), num)
    ensures r.altered && r.CacheCoherent()
    ensures vec.Elements() == old(vec.Elements()) && vec.altered
  {
    var copy := new EuclideanVector.Copy(vec);
    copy.MulAssign(num);
    r := new EuclideanVector.Copy(copy);
  }

  /** operator/(vec, num): copies vec and divides in place, failing on a divisor of
      exactly 0 (after the copy, so vec is marked stale either way). */
  method Quotient(vec: EuclideanVector, num: real) returns (r: Result<EuclideanVector>)
    requires vec.Valid()
    modifies vec`altered, vec`cache
    ensures r.Failure? <==> num == 0.0
    ensures r.Failure? ==> r.error == DivisionByZero
    ensures r.Success? ==> fresh(r.value) && fresh(r.value.data) && r.value.Valid()
    ensures r.Success? ==> r.value.Elements() == DivideAll(vec.Elements(), num)
    ensures r.Success? ==> r.value.altered && r.value.CacheCoherent()
    ensures vec.Elements() == old(vec.Elements()) && vec.altered
  {
    var copy := new EuclideanVector.Copy(vec);
    var o := copy.DivAssign(num);
    if o.Fail? {
      return Failure(o.error);
    }
    var result := new EuclideanVector.Copy(copy);
    r := Success(result);
  }

  /** operator<<: "[", each element through the formatter (std::to_string in the
      source), a single space after every element but the last, "]". The loop walks an
      iterator from begin() to end() and compares it with end() - 1. */
  method Format(vec: EuclideanVector, fmt: real -> string) returns (out: string)
    requires vec.Valid()
    ensures out == Render(vec.Elements(), fmt)
  {
    ghost var s := vec.Elements();
    out := "[";
    var it := vec.Begin();
    var end := vec.End();
    while it.NotEqual(end)
      invariant it.buf == vec.data && end.buf == vec.data && end.pos == vec.dim
      invariant 0 <= it.pos <= vec.dim
      invariant out == "[" + Join(s[..it.pos], fmt) + (if 0 < it.pos < vec.dim then " " else "")
      decreases vec.dim - it.pos
    {
      var i := it.pos;
      assert s[..i + 1][..i] == s[..i];
      out := out + fmt(it.Deref());
      var final := end.Minus(1);
      if it.NotEqual(final) {
        out := out + " ";
      }
      it.Increment();
    }
    assert s[..vec.dim] == s;
    out := out + "]";
  }

  /** euclidean_norm: returns the memo when it is not stale; otherwise sums the
      squares of the elements from the front, takes the square root, stores it and
      clears the stale mark. On a coherent vector the result is the norm of the
      elements, and the vector stays coherent. */
  method EuclideanNorm(v: EuclideanVector) returns (n: real)
    requires v.Valid()
    modifies v`altered, v`cache
    ensures n == (if old(v.altered) then Norm(v.Elements()) else old(v.cache))
    ensures !v.altered && v.cache == n
    ensures old(v.CacheCoherent()) ==> n == Norm(v.Elements()) && v.CacheCoherent()
  {
    if !v.altered {
      return v.cache;
    }
    var sum := 0.0;
    var i := 0;
    while i < v.dim
      invariant 0 <= i <= v.dim
      invariant sum == SumSquares(v.data[..i])
    {
      assert v.data[..i + 1][..i] == v.data[..i];
      sum := sum + v.data[i] * v.data[i];
      i := i + 1;
    }
    assert v.data[..v.dim] == v.data[..];
    v.cache := Sqrt(sum);
    v.altered := false;
    n := v.cache;
  }

  /** Two calls of euclidean_norm with no change in between give the same value. */
  method NormTwice(v: EuclideanVector) returns (first: real, second: real)
    requires v.Valid()
    modifies v`altered, v`cache
    ensures first == second
    ensures old(v.CacheCoherent()) ==> first == Norm(v.Elements())
  {
    first := EuclideanNorm(v);
    second := EuclideanNorm(v);
  }

  /** unit, as the source writes it: fails on dimension 0 (checked first), then on a
      norm of 0; otherwise copies v and divides the copy's elements by the norm through
      the iterator, without marking the copy stale. The copy took over v's freshly
      computed memo by the copy constructor's swap, so the result carries
      altered == false and cache == norm(v), which is not its own norm (see
      UnitNormOfThreeFour). */
  method Unit(v: EuclideanVector) returns (r: Result<EuclideanVector>)
    requires v.Valid()
    modifies v`altered, v`cache
    ensures v.Elements() == old(v.Elements())
    ensures v.dim == 0 ==> r == Failure(UnitNoDimensions) && unchanged(v)
    ensures v.dim != 0 && r.Failure? ==> r.error == UnitZeroNorm && !v.altered && v.cache == 0.0
    ensures v.dim != 0 ==> var n := if old(v.altered) then Norm(v.Elements()) else old(v.cache);
      (r.Failure? <==> n == 0.0) &&
      (r.Success? ==> fresh(r.value) && fresh(r.value.data) && r.value.Valid() &&
                      r.value.Elements() == DivideAll(v.Elements(), n) &&
                      !r.value.altered && r.value.cache == n && v.altered)
    ensures old(v.CacheCoherent()) && v.dim != 0 ==>
      (r.Failure? <==> forall i :: 0 <= i < v.dim ==> v.data[i] == 0.0)
  {
    if v.dim == 0 {
      return Failure(UnitNoDimensions);
    }
    var norm := EuclideanNorm(v);
    NormZeroIff(v.Elements());
    if norm == 0.0 {
      return Failure(UnitZeroNorm);
    }
    var unitVec := new EuclideanVector.Copy(v);
    DivideElements(unitVec, norm);
    r := Success(unitVec);
  }

  /** unit with the memo marked stale after its elements are divided, as writing them
      through the non-const operator[] would do. The result is coherent, and when the
      sum of squares of v is the square of a natural, its norm is exactly 1. */
  method UnitCorrected(v: EuclideanVector) returns (r: Result<EuclideanVector>)
    requires v.Valid()
    modifies v`altered, v`cache
    ensures v.Elements() == old(v.Elements())
    ensures v.dim == 0 ==> r == Failure(UnitNoDimensions)
    ensures v.dim != 0 && r.Failure? ==> r.error == UnitZeroNorm
    ensures v.dim != 0 ==> var n := if old(v.altered) then Norm(v.Elements()) else old(v.cache);
      (r.Failure? <==> n == 0.0) &&
      (r.Success? ==> fresh(r.value) && fresh(r.value.data) && r.value.Valid() &&
                      r.value.Elements() == DivideAll(v.Elements(), n) &&
                      r.value.altered && r.value.CacheCoherent())
    ensures old(v.CacheCoherent()) && v.dim != 0 ==>
      (r.Failure? <==> forall i :: 0 <= i < v.dim ==> v.data[i] == 0.0)
    ensures old(v.CacheCoherent()) && r.Success? ==>
      forall k: nat :: SumSquares(v.Elements()) == (k * k) as real ==>
        Norm(r.value.Elements()) == 1.0
  {
    if v.dim == 0 {
      return Failure(UnitNoDimensions);
    }
    var norm := EuclideanNorm(v);
    NormZeroIff(v.Elements());
    if norm == 0.0 {
      return Failure(UnitZeroNorm);
    }
    var unitVec := new EuclideanVector.Copy(v);
    DivideElements(unitVec, norm);
    unitVec.UpdateAltered();
    r := Success(unitVec);
    if old(v.CacheCoherent()) {
      assert SumSquares(v.Elements()) != 0.0;
      forall k: nat | SumSquares(v.Elements()) == (k * k) as real
        ensures Norm(r.value.Elements()) == 1.0
      {
        assert k != 0;
        DividedByNormHasNormOne(v.Elements(), k);
      }
    }
  }

  /** unit's loop `for (double& mag : unit_vec) mag /= norm`: divides every element in
      place through a reference, which does not touch the memo. */
  method DivideElements(u: EuclideanVector, norm: real)
    requires u.Valid() && norm != 0.0
    modifies u.data
    ensures u.Elements() == DivideAll(old(u.Elements()), norm)
  {
    var i := 0;
    while i < u.dim
      invariant 0 <= i <= u.dim
      invariant forall j :: 0 <= j < i ==> u.data[j] == old(u.data[j]) / norm
      invariant forall j :: i <= j < u.dim ==> u.data[j] == old(u.data[j])
    {
      u.data[i] := u.data[i] / norm;
      i := i + 1;
    }
  }

  /** dot: fails with both dimensions when they differ; otherwise accumulates
      y[i] * x[i] from the front, which is 0 for two vectors of dimension 0. */
  method Dot(x: EuclideanVector, y: EuclideanVector) returns (r: Result<real>)
    requires x.Valid() && y.Valid()
    ensures x.dim != y.dim ==> r == Failure(DimensionMismatch(x.dim, y.dim))
    ensures x.dim == y.dim ==> r == Success(DotProduct(x.Elements(), y.Elements()))
  {
    if x.dim != y.dim {
      return Failure(DimensionMismatch(x.dim, y.dim));
    }
    var result := 0.0;
    var i := 0;
    while i < x.dim
      invariant 0 <= i <= x.dim
      invariant result == DotProduct(x.data[..i], y.data[..i])
    {
      assert x.data[..i + 1][..i] == x.data[..i];
      assert y.data[..i + 1][..i] == y.data[..i];
      result := result + y.data[i] * x.data[i];
      i := i + 1;
    }
    assert x.data[..x.dim] == x.data[..] && y.data[..y.dim] == y.data[..];
    r := Success(result);
  }

  /** v += v doubles every element: operator+= reads each element of its (aliased)
      right operand before it overwrites it. */
  method DoubleInPlace(v: EuclideanVector)
    requires v.Valid()
    modifies v`altered, v.data
    ensures v.Elements() == Scale(old(v.Elements()), 2.0) && v.altered
  {
    var o := v.AddAssign(v);
    AddSelfDoubles(old(v.Elements()));
  }

  /** v -= v makes every element zero. */
  method ZeroInPlace(v: EuclideanVector)
    requires v.Valid()
    modifies v`altered, v.data
    ensures v.Elements() == Constant(v.dim, 0.0) && v.altered
  {
    var o := v.SubAssign(v);
    SubSelfZero(old(v.Elements()));
  }

  /** v = v on {1.1, 2.2} keeps both elements. */
  method SelfCopyKeeps() returns (d: int, first: Result<real>, second: Result<real>, third: Result<real>)
    ensures d == 2 && first == Success(1.1) && second == Success(2.2)
    ensures third == Failure(OutOfRange(2))
  {
    var v := new EuclideanVector.FromList([1.1, 2.2]);
    v.CopyAssign(v);
    d := v.Dimensions();
    first := v.At(0);
    second := v.At(1);
    third := v.At(2);
  }

  /** v = std::move(v) on three elements leaves dimension 0, so at(0) fails. */
  method SelfMoveEmpties() returns (d: int, first: Result<real>)
    ensures d == 0 && first == Failure(OutOfRange(0))
  {
    var v := new EuclideanVector.Filled(3, 1.6);
    v.MoveAssign(v);
    d := v.Dimensions();
    first := v.At(0);
  }

  /** For {3, 4}: euclidean_norm is 5; after *= 2 the memo is stale, so the next call
      recomputes and returns 10. */
  method NormAfterScaleOfThreeFour() returns (before: real, after: real)
    ensures before == 5.0 && after == 10.0
  {
    var v := new EuclideanVector.FromList([3.0, 4.0]);
    NormOfThreeFour();
    NormOfSixEight();
    before := EuclideanNorm(v);
    v.MulAssign(2.0);
    after := EuclideanNorm(v);
  }

  /** For {3, 4}: unit as written hands back a vector whose memo claims norm 5, so
      euclidean_norm of the unit vector returns 5, while the norm of its elements
      {3/5, 4/5} is 1. */
  method UnitNormOfThreeFour() returns (reported: real, actual: real)
    ensures reported == 5.0 && actual == 1.0
  {
    var v := new EuclideanVector.FromList([3.0, 4.0]);
    NormOfThreeFour();
    UnitOfThreeFour();
    var u := Unit(v);
    reported := EuclideanNorm(u.value);
    actual := Norm(u.value.Elements());
  }

  /** For {3, 4}: the corrected unit gives a vector whose euclidean_norm is 1. */
  method UnitCorrectedNormOfThreeFour() returns (reported: real)
    ensures reported == 1.0
  {
    var v := new EuclideanVector.FromList([3.0, 4.0]);
    NormOfThreeFour();
    UnitOfThreeFour();
    var u := UnitCorrected(v);
    reported := EuclideanNorm(u.value);
  }
}

/**
 * The composite second-level/local cache key: a running 32-bit polynomial hash, a 64-bit
 * checksum, an update counter and the ordered list of the values folded in.
 *
 * Java objects are values of the type parameter `T`; a Java `null` is `None`.
 * `ArrayUtil.equals` (deep equality, array contents included) is Dafny's `==` on `T`, and
 * `ArrayUtil.hashCode` is the function `hashOf` that a key is created with; being a function,
 * it gives equal values equal hashes.
 */
module CacheKeys {
  import opened Wrappers
  import opened JavaInts

  const DEFAULT_MULTIPLIER: Int32 := 37
  const DEFAULT_HASHCODE: Int32 := 17

  /** The fields of a key: what `equals` compares. */
  datatype KeyState<T> = KeyState(hashcode: Int32, checksum: Int64, count: nat, updateList: seq<Option<T>>)

  /** The state of `new CacheKey()`. */
  function InitialState<T>(): KeyState<T> {
    KeyState(DEFAULT_HASHCODE, 0, 0, [])
  }

  /** The hash `update` starts from: 1 for `null`, otherwise the value's own hash. */
  function BaseHashCode<T>(hashOf: T -> Int32, value: Option<T>): Int32 {
    match value
    case None => 1
    case Some(v) => hashOf(v)
  }

  /** One `update(value)`, with Java's wrap-around on every `int` and `long` operation. */
  function Step<T>(hashOf: T -> Int32, s: KeyState<T>, value: Option<T>): KeyState<T> {
    var base := BaseHashCode(hashOf, value);
    var count := s.count + 1;
    KeyState(Wrap32(Wrap32(DEFAULT_MULTIPLIER * s.hashcode) + Wrap32(base * count)),
             Wrap64(s.checksum + base), count, s.updateList + [value])
  }

  /** `update` applied to each of `values`, left to right. */
  function Fold<T>(hashOf: T -> Int32, s: KeyState<T>, values: seq<Option<T>>): KeyState<T>
    decreases |values|
  {
    if values == [] then s else Fold(hashOf, Step(hashOf, s, values[0]), values[1..])
  }

  /** The key a fresh `CacheKey` reaches after being updated with `values`. */
  function KeyOf<T>(hashOf: T -> Int32, values: seq<Option<T>>): KeyState<T> {
    Fold(hashOf, InitialState(), values)
  }

  /** Updating with `xs` and then with `ys` is updating with `xs + ys`. */
  lemma {:induction false} FoldAppend<T>(hashOf: T -> Int32, s: KeyState<T>, xs: seq<Option<T>>, ys: seq<Option<T>>)
    ensures Fold(hashOf, s, xs + ys) == Fold(hashOf, Fold(hashOf, s, xs), ys)
    decreases |xs|
  {
    if xs == [] {
      assert xs + ys == ys;
    } else {
      assert (xs + ys)[0] == xs[0];
      assert (xs + ys)[1..] == xs[1..] + ys;
      FoldAppend(hashOf, Step(hashOf, s, xs[0]), xs[1..], ys);
    }
  }

  /** The last update is one `Step` after all the others. */
  lemma FoldSnoc<T>(hashOf: T -> Int32, s: KeyState<T>, xs: seq<Option<T>>, value: Option<T>)
    ensures Fold(hashOf, s, xs + [value]) == Step(hashOf, Fold(hashOf, s, xs), value)
  {
    FoldAppend(hashOf, s, xs, [value]);
    assert Fold(hashOf, Step(hashOf, Fold(hashOf, s, xs), value), []) == Step(hashOf, Fold(hashOf, s, xs), value);
  }

  /** Each update adds exactly one to the count and appends its value at the end of the list. */
  lemma {:induction false} FoldCountsAndAppends<T>(hashOf: T -> Int32, s: KeyState<T>, values: seq<Option<T>>)
    ensures Fold(hashOf, s, values).count == s.count + |values|
    ensures Fold(hashOf, s, values).updateList == s.updateList + values
    decreases |values|
  {
    if values != [] {
      FoldCountsAndAppends(hashOf, Step(hashOf, s, values[0]), values[1..]);
      assert s.updateList + [values[0]] + values[1..] == s.updateList + values;
    }
  }

  // Reference definitions in unbounded arithmetic: the exact polynomial and the exact sum
  // that the 32-bit `hashcode` and the 64-bit `checksum` are truncations of.

  /** 17*37^n + sum of base(x_i) * i * 37^(n-i) over the values x_1 .. x_n. */
  function ExactHash<T>(hashOf: T -> Int32, values: seq<Option<T>>): int
    decreases |values|
  {
    if values == [] then DEFAULT_HASHCODE
    else DEFAULT_MULTIPLIER * ExactHash(hashOf, values[..|values| - 1])
         + BaseHashCode(hashOf, values[|values| - 1]) * |values|
  }

  /** The sum of the base hashes of the values. */
  function ExactChecksum<T>(hashOf: T -> Int32, values: seq<Option<T>>): int
    decreases |values|
  {
    if values == [] then 0
    else ExactChecksum(hashOf, values[..|values| - 1]) + BaseHashCode(hashOf, values[|values| - 1])
  }

  /** How many multiples of 2^32 truncation adds to `x`. */
  function Wrap32Offset(x: int): (k: int)
    ensures Wrap32(x) == x + k * TWO_32
  {
    -(x / TWO_32) - (if x % TWO_32 > MAX_INT then 1 else 0)
  }

  /** How many multiples of 2^64 truncation adds to `x`. */
  function Wrap64Offset(x: int): (k: int)
    ensures Wrap64(x) == x + k * TWO_64
  {
    -(x / TWO_64) - (if x % TWO_64 > MAX_LONG then 1 else 0)
  }

  /** Values that differ by a multiple of 2^32 wrap to the same `int`. */
  lemma Wrap32Shift(x: int, k: int)
    ensures Wrap32(x + k * TWO_32) == Wrap32(x)
  {
    assert (x + k * TWO_32) % TWO_32 == x % TWO_32;
  }

  /** Values that differ by a multiple of 2^64 wrap to the same `long`. */
  lemma Wrap64Shift(x: int, k: int)
    ensures Wrap64(x + k * TWO_64) == Wrap64(x)
  {
    assert (x + k * TWO_64) % TWO_64 == x % TWO_64;
  }

  /** Truncating the operands of an `int` addition does not change the truncated sum. */
  lemma Wrap32Add(a: int, b: int)
    ensures Wrap32(Wrap32(a) + Wrap32(b)) == Wrap32(a + b)
  {
    var ka, kb := Wrap32Offset(a), Wrap32Offset(b);
    assert Wrap32(a) + Wrap32(b) == (a + b) + (ka + kb) * TWO_32;
    Wrap32Shift(a + b, ka + kb);
  }

  /** Truncating the operand of `37 * h` does not change the truncated product. */
  lemma Wrap32Scale(h: int)
    ensures Wrap32(DEFAULT_MULTIPLIER * Wrap32(h)) == Wrap32(DEFAULT_MULTIPLIER * h)
  {
    var k := Wrap32Offset(h);
    assert DEFAULT_MULTIPLIER * Wrap32(h) == DEFAULT_MULTIPLIER * h + (DEFAULT_MULTIPLIER * k) * TWO_32;
    Wrap32Shift(DEFAULT_MULTIPLIER * h, DEFAULT_MULTIPLIER * k);
  }

  /**
   * Java's step `37*h + base*count` with every operation wrapped equals the wrapped exact value;
   * `product` stands for the exact `base * count`.
   */
  lemma StepHashWraps(h: int, product: int)
    ensures Wrap32(Wrap32(DEFAULT_MULTIPLIER * Wrap32(h)) + Wrap32(product))
         == Wrap32(DEFAULT_MULTIPLIER * h + product)
  {
    Wrap32Scale(h);
    Wrap32Add(DEFAULT_MULTIPLIER * h, product);
  }

  /** Wrapping the running checksum after each addition equals wrapping the exact sum once. */
  lemma ChecksumWraps(c: int, base: int)
    ensures Wrap64(Wrap64(c) + base) == Wrap64(c + base)
  {
    var k := Wrap64Offset(c);
    assert Wrap64(c) + base == (c + base) + k * TWO_64;
    Wrap64Shift(c + base, k);
  }

  /** The last update of a key is one `Step` after the key of the others. */
  lemma KeyOfSnoc<T>(hashOf: T -> Int32, values: seq<Option<T>>)
    requires values != []
    ensures KeyOf(hashOf, values) == Step(hashOf, KeyOf(hashOf, values[..|values| - 1]), values[|values| - 1])
    ensures KeyOf(hashOf, values[..|values| - 1]).count == |values| - 1
  {
    var n := |values|;
    assert values == values[..n - 1] + [values[n - 1]];
    FoldSnoc(hashOf, InitialState(), values[..n - 1], values[n - 1]);
    FoldCountsAndAppends(hashOf, InitialState(), values[..n - 1]);
  }

  /** The key's `hashcode` is the exact polynomial hash truncated to 32 bits. */
  lemma {:induction false} KeyHashMatchesExact<T>(hashOf: T -> Int32, values: seq<Option<T>>)
    ensures KeyOf(hashOf, values).hashcode == Wrap32(ExactHash(hashOf, values))
    decreases |values|
  {
    if values != [] {
      var n := |values|;
      var prefix := values[..n - 1];
      KeyHashMatchesExact(hashOf, prefix);
      KeyOfSnoc(hashOf, values);
      var s := KeyOf(hashOf, prefix);
      var base := BaseHashCode(hashOf, values[n - 1]);
      assert s.count + 1 == n;
      var product := base * n;
      assert KeyOf(hashOf, values).hashcode == Wrap32(Wrap32(DEFAULT_MULTIPLIER * s.hashcode) + Wrap32(product));
      assert ExactHash(hashOf, values) == DEFAULT_MULTIPLIER * ExactHash(hashOf, prefix) + product;
      StepHashWraps(ExactHash(hashOf, prefix), product);
    }
  }

  /** The key's `checksum` is the exact sum of base hashes truncated to 64 bits. */
  lemma {:induction false} KeyChecksumMatchesExact<T>(hashOf: T -> Int32, values: seq<Option<T>>)
    ensures KeyOf(hashOf, values).checksum == Wrap64(ExactChecksum(hashOf, values))
    decreases |values|
  {
    if values != [] {
      var n := |values|;
      var prefix := values[..n - 1];
      KeyChecksumMatchesExact(hashOf, prefix);
      KeyOfSnoc(hashOf, values);
      ChecksumWraps(ExactChecksum(hashOf, prefix), BaseHashCode(hashOf, values[n - 1]));
    }
  }

  /**
   * The key's `hashcode` is the exact polynomial hash truncated to 32 bits, and its `checksum`
   * the exact sum of base hashes truncated to 64 bits, whatever the order of wrapping.
   */
  lemma KeyOfMatchesExact<T>(hashOf: T -> Int32, values: seq<Option<T>>)
    ensures KeyOf(hashOf, values).hashcode == Wrap32(ExactHash(hashOf, values))
    ensures KeyOf(hashOf, values).checksum == Wrap64(ExactChecksum(hashOf, values))
    ensures KeyOf(hashOf, values).count == |values|
  {
    KeyHashMatchesExact(hashOf, values);
    KeyChecksumMatchesExact(hashOf, values);
    FoldCountsAndAppends(hashOf, InitialState(), values);
  }

  /** A cache key under construction. */
  class CacheKey<T(==)> {
    const hashOf: T -> Int32
    const multiplier: Int32
    var hashcode: Int32
    var checksum: Int64
    var count: nat
    var updateList: seq<Option<T>>

    function State(): KeyState<T>
      reads this
    {
      KeyState(hashcode, checksum, count, updateList)
    }

    /** The fields are those that updating a fresh key with `updateList` produces. */
    ghost predicate Valid()
      reads this
    {
      && multiplier == DEFAULT_MULTIPLIER
      && count == |updateList|
      && State() == KeyOf(hashOf, updateList)
    }

    /** `new CacheKey()`. */
    constructor (hashOf: T -> Int32)
      ensures Valid() && this.hashOf == hashOf
      ensures hashcode == 17 && multiplier == 37 && checksum == 0 && count == 0 && updateList == []
    {
      this.hashOf := hashOf;
      hashcode := DEFAULT_HASHCODE;
      multiplier := DEFAULT_MULTIPLIER;
      checksum := 0;
      count := 0;
      updateList := [];
    }

    /** `new CacheKey(values)`: a fresh key updated with each of `values`, left to right. */
    constructor FromObjects(hashOf: T -> Int32, values: seq<Option<T>>)
      ensures Valid() && this.hashOf == hashOf
      ensures State() == KeyOf(hashOf, values) && updateList == values
    {
      this.hashOf := hashOf;
      hashcode := DEFAULT_HASHCODE;
      multiplier := DEFAULT_MULTIPLIER;
      checksum := 0;
      count := 0;
      updateList := [];
      new;
      UpdateAll(values);
      assert updateList == [] + values;
    }

    /** `getUpdateCount()`, the size of the update list, agrees with the counter. */
    function GetUpdateCount(): (n: nat)
      reads this
      requires Valid()
      ensures n == count
    {
      |updateList|
    }

    /** `hashCode()`: the exact polynomial hash of the update list, truncated to an `int`. */
    function HashCode(): (h: Int32)
      reads this
      ensures Valid() ==> h == Wrap32(ExactHash(hashOf, updateList))
    {
      KeyHashMatchesExact(hashOf, updateList);
      hashcode
    }

    method Update(value: Option<T>)
      requires Valid()
      modifies this
      ensures Valid()
      ensures count == old(count) + 1
      ensures updateList == old(updateList) + [value]
      ensures State() == Step(hashOf, old(State()), value)
    {
      ghost var next := Step(hashOf, State(), value);
      ghost var before := updateList;
      var baseHashCode: Int32 := if value.None? then 1 else hashOf(value.value);
      assert baseHashCode == BaseHashCode(hashOf, value);
      var newCount := count + 1;
      var newChecksum := Wrap64(checksum + baseHashCode);
      assert newChecksum == next.checksum;
      baseHashCode := Wrap32(baseHashCode * newCount);
      assert baseHashCode == Wrap32(BaseHashCode(hashOf, value) * next.count);
      var scaled := Wrap32(multiplier * hashcode);
      assert scaled == Wrap32(DEFAULT_MULTIPLIER * State().hashcode);
      var newHashcode := Wrap32(scaled + baseHashCode);
      assert newHashcode == next.hashcode;
      count, checksum, hashcode, updateList := newCount, newChecksum, newHashcode, updateList + [value];
      assert State() == next;
      FoldSnoc(hashOf, InitialState(), before, value);
    }

    method UpdateAll(values: seq<Option<T>>)
      requires Valid()
      modifies this
      ensures Valid()
      ensures updateList == old(updateList) + values
      ensures State() == Fold(hashOf, old(State()), values)
    {
      ghost var start := State();
      for i := 0 to |values|
        invariant Valid()
        invariant updateList == old(updateList) + values[..i]
        invariant State() == Fold(hashOf, start, values[..i])
      {
        assert values[..i + 1] == values[..i] + [values[i]];
        FoldSnoc(hashOf, start, values[..i], values[i]);
        Update(values[i]);
      }
      assert values[..|values|] == values;
    }

    /**
     * `equals`: identical values are equal; otherwise the hash, checksum and count must agree
     * (a fast reject) and then the update lists element by element. An argument that is not a
     * `CacheKey` at all is represented by `null`.
     */
    method Equals(that: CacheKey?<T>) returns (b: bool)
      requires Valid()
      requires that != null ==> that.Valid()
      ensures that == this ==> b
      ensures that == null ==> !b
      ensures that != null ==>
        (b <==> hashcode == that.hashcode && checksum == that.checksum
                && count == that.count && updateList == that.updateList)
      ensures b ==> HashCode() == that.HashCode()
    {
      if this == that {
        return true;
      }
      if that == null {
        return false;
      }
      if hashcode != that.hashcode {
        return false;
      }
      if checksum != that.checksum {
        return false;
      }
      if count != that.count {
        return false;
      }
      var i := 0;
      while i < |updateList|
        invariant 0 <= i <= |updateList| == |that.updateList|
        invariant updateList[..i] == that.updateList[..i]
      {
        if updateList[i] != that.updateList[i] {
          return false;
        }
        assert updateList[..i + 1] == updateList[..i] + [updateList[i]];
        assert that.updateList[..i + 1] == that.updateList[..i] + [that.updateList[i]];
        i := i + 1;
      }
      assert updateList == updateList[..i] && that.updateList == that.updateList[..i];
      return true;
    }

    /** `clone()`: an equal key with its own copy of the update list. */
    method Clone() returns (c: CacheKey<T>)
      requires Valid()
      ensures fresh(c) && c.Valid()
      ensures c.hashOf == hashOf && c.State() == State()
    {
      c := new CacheKey(hashOf);
      c.hashcode, c.checksum, c.count, c.updateList := hashcode, checksum, count, updateList;
    }
  }

  /** Two keys built from the same values with the same hashing agree on every field. */
  lemma SameUpdatesSameFields<T>(a: CacheKey<T>, b: CacheKey<T>)
    requires a.Valid() && b.Valid()
    requires a.hashOf == b.hashOf && a.updateList == b.updateList
    ensures a.State() == b.State()
  {
  }

  /**
   * A clone is equal to its original, and updating the original afterwards leaves the clone's
   * update list as it was.
   */
  method CloneThenUpdate<T(==)>(k: CacheKey<T>, value: Option<T>) returns (c: CacheKey<T>, equalAtFirst: bool)
    requires k.Valid()
    modifies k
    ensures fresh(c) && c.Valid() && k.Valid()
    ensures equalAtFirst
    ensures c.updateList == old(k.updateList)
    ensures k.updateList == old(k.updateList) + [value]
  {
    c := k.Clone();
    equalAtFirst := c.Equals(k);
    k.Update(value);
  }
}

/** The delay line of a live input (engine/src/core/audiomix.cpp): a ring of the newest samples per channel,
    addressed by sample index. */
module DelayLine {
  import opened RealMath
  import opened Tai

  function Slot(i: nat, length: nat): (p: nat)
    requires length > 0
    ensures p < length
  {
    i % length
  }

  /** Two samples less than a ring apart are never in one place. */
  lemma SlotsDiffer(i: nat, j: nat, length: nat)
    requires length > 0 && i < j < i + length
    ensures Slot(i, length) != Slot(j, length)
  {
    var a, b := i / length, j / length;
    assert i == a * length + i % length && j == b * length + j % length;
    if i % length == j % length {
      var e := b - a;
      assert e * length == j - i;
      if e >= 1 { Times(e, length); } else { Times(-e, length); }
    }
  }

  lemma Times(e: int, length: nat)
    requires length > 0 && e >= 0
    ensures e * length >= e && (e >= 1 ==> e * length >= length)
  {
    if e >= 1 {
      var f := e - 1;
      assert e * length == f * length + length;
    }
  }

  /** The place of the s-th sample from index i on, for less than a ring of samples. */
  lemma SlotFrom(i: nat, s: nat, length: nat)
    requires length > 0 && s < length
    ensures var p := Slot(i, length) + s; Slot(i + s, length) == if p < length then p else p - length
  {
    var a, p := i / length, i % length + s;
    assert i + s == a * length + p;
    if p < length { ModIs(i + s, a, p, length); } else {
      assert i + s == (a + 1) * length + (p - length);
      ModIs(i + s, a + 1, p - length, length);
    }
  }

  lemma ModIs(x: nat, d: int, r: nat, m: nat)
    requires m > 0 && r < m && x == d * m + r
    ensures x % m == r
  {
    var e := d - x / m;
    assert e * m == x % m - r;
    if e >= 1 { Times(e, m); }
    if e <= -1 { Times(-e, m); }
  }

  /** One of the `count` samples from `from` on has the place of sample i. */
  ghost predicate Hit(from: nat, count: nat, i: nat, length: nat)
    requires length > 0
  {
    exists j: nat :: from <= j < from + count && Slot(j, length) == Slot(i, length)
  }

  /** A sample that is not one of them and less than a ring from all of them keeps its place. */
  lemma ApartIsSafe(from: nat, count: nat, i: nat, length: nat)
    requires length > 0 && (i < from || from + count <= i) && from + count <= i + length && i < from + length
    ensures !Hit(from, count, i, length)
  {
    forall j: nat | from <= j < from + count ensures Slot(j, length) != Slot(i, length) {
      if i < j { SlotsDiffer(i, j, length); } else { SlotsDiffer(j, i, length); }
    }
  }

  lemma NotOverwritten(from: nat, count: nat, i: nat, length: nat)
    requires length > 0 && count <= length && !Hit(from, count, i, length)
    ensures var pos, p := Slot(from, length), Slot(i, length);
            !(pos <= p < pos + Min(count, length - pos)) && !(p < count - Min(count, length - pos))
  {
    var pos, p := Slot(from, length), Slot(i, length);
    var s := if p >= pos then p - pos else p + length - pos;
    SlotFrom(from, s, length);
    assert Slot(from + s, length) == p;
  }

  /** Where row c of rows of n starts. */
  function RowAt(c: nat, n: nat): nat {
    c * n
  }

  lemma RowsInOrder(c: nat, n: nat)
    ensures RowAt(0, n) == 0 && RowAt(c + 1, n) == RowAt(c, n) + n && forall d :: 0 <= d < c ==> RowAt(d, n) + n <= RowAt(c, n)
  {
    forall d | 0 <= d < c ensures RowAt(d, n) + n <= RowAt(c, n) {
      var more := c - d - 1;
      assert c * n == d * n + n + more * n;
    }
  }

  class DelayLine {
    var channels: nat
    var length: nat
    var data: array2<real>
    var start: nat
    var end: nat
    var started: bool
    /** What the ring holds of each channel, by sample index, and where the history without a gap began. */
    ghost var vals: seq<map<int, real>>
    ghost var since: nat

    /** Sample i of the channel is in its place. */
    ghost predicate Kept(c: nat, i: int)
      reads this, data
      requires length > 0 && c < |vals| && c < data.Length0 && data.Length1 == length
    {
      i in vals[c] ==> i >= 0 && data[c, Slot(i, length)] == vals[c][i]
    }

    ghost predicate Valid()
      reads this, data
    {
      && data.Length0 == channels && data.Length1 == length && |vals| == channels
      && start <= end
      && (started ==> since <= end && start == Max(since, end - length))
      && (!started ==> start == end == 0)
      && (length > 0 ==> forall c, i :: 0 <= c < channels && i in vals[c] ==> Kept(c, i))
    }

    /** Every sample from the line's start to its end is in the ring. */
    ghost predicate Complete()
      reads this
    {
      forall c, i :: 0 <= c < |vals| && start <= i < end ==> i in vals[c]
    }

    constructor ()
      ensures Valid() && !started && channels == 0 && length == 0 && fresh(data)
    {
      channels, length, start, end, started := 0, 0, 0, 0, false;
      data := new real[0, 0];
      vals, since := [], 0;
    }

    method Reset(channels: nat, length: nat)
      modifies this
      ensures Valid() && fresh(data) && !started && Complete()
      ensures this.channels == channels && this.length == length && start == end == 0
    {
      this.channels, this.length := channels, length;
      data := new real[channels, length]((i, j) => 0.0);
      start, end, started := 0, 0, false;
      vals := seq(channels, c => map[]);
      since := 0;
    }

    /** Writing goes on at `from`: after a gap (or first) the line is empty there, else it keeps what it holds. */
    method Begin(from: nat)
      requires Valid()
      modifies this
      ensures Valid() && started && data == old(data) && channels == old(channels) && length == old(length)
      ensures if !old(started) || from > old(end) || from < old(start) then start == end == since == from
              else start == old(start) && end == old(end) && since == old(since) && vals == old(vals)
      ensures old(Complete()) ==> Complete()
    {
      if !started || from > end || from < start {
        start := from;
        end := from;
        started := true;
        since := from;
        vals := seq(channels, c => map[]);
      }
    }

    /** It goes up to `to` now, and holds the newest `length` samples before it. */
    method Commit(to: nat)
      requires Valid()
      modifies this`start, this`end
      ensures Valid()
      ensures !started || to <= old(end) ==> start == old(start) && end == old(end)
      ensures started && to > old(end) ==> end == to && start == Max(since, to - length)
      ensures started && (forall c, i :: 0 <= c < channels && Max(since, Max(to, old(end)) - length) <= i < Max(to, old(end)) ==> i in vals[c]) ==> Complete()
    {
      if !started || to <= end {
        return;
      }
      end := to;
      if end - start > length {
        start := end - length;
      }
    }

    /** `values` of a channel from sample index `index` on, wherever that is; of more than a ring only the
        newest stay. The ring then holds exactly them, and of the others those whose places were not taken. */
    method Put(c: nat, index: nat, values: seq<real>)
      requires Valid()
      modifies data, this`vals
      ensures Valid()
      ensures c >= channels || length == 0 ==> vals == old(vals)
      ensures c < channels && length > 0 ==> vals == old(vals)[c := Overwritten(old(vals)[c], length, index, values)]
    {
      if c >= channels || length == 0 {
        return;
      }
      var from, v := index, values;
      if |v| > length {
        from := index + (|v| - length);
        v := v[|v| - length..];
      }
      WriteRing(c, from, v);
      vals := vals[c := Overwritten(vals[c], length, index, values)];
      forall d, i | 0 <= d < channels && i in vals[d] ensures Kept(d, i) {
        if d != c || !(from <= i < from + |v|) { assert old(Kept(d, i)); }
      }
    }

    /** The samples [from, to) of every channel, put and committed. */
    method TakeSlice(from: nat, to: nat, slice: seq<seq<real>>)
      requires Valid() && started && Complete() && start <= from <= end && from <= to
      requires |slice| == channels && forall c :: 0 <= c < channels ==> |slice[c]| == to - from
      modifies data, this`vals, this`start, this`end
      ensures Valid() && Complete() && end == Max(old(end), to) && start == Max(since, end - length)
      ensures forall c, i :: 0 <= c < channels && start <= i < end ==>
                i in vals[c] && if from <= i < to then vals[c][i] == slice[c][i - from] else i in old(vals)[c] && vals[c][i] == old(vals)[c][i]
    {
      hide Kept, Hit, Overwritten;
      ghost var was := vals;
      for c := 0 to channels
        invariant Valid() && |vals| == |was| && start == old(start) && end == old(end)
        invariant forall d :: c <= d < channels ==> vals[d] == was[d]
        invariant length > 0 ==> forall d :: 0 <= d < c ==> vals[d] == Overwritten(was[d], length, from, slice[d])
      {
        Put(c, from, slice[c]);
      }
      ghost var last := Max(end, to);
      forall c, i | 0 <= c < channels && Max(since, last - length) <= i < last
        ensures i in vals[c] && if from <= i < to then vals[c][i] == slice[c][i - from] else i in was[c] && vals[c][i] == was[c][i]
      {
        NewestStay(was[c], length, from, slice[c], i);
      }
      Commit(to);
    }

    /** The ring from the place of sample `from` on, around its end. */
    method WriteRing(c: nat, from: nat, v: seq<real>)
      requires length > 0 && c < data.Length0 && data.Length1 == length && |v| <= length
      modifies data
      ensures forall i :: from <= i < from + |v| ==> data[c, Slot(i, length)] == v[i - from]
      ensures forall d, i :: 0 <= d < data.Length0 && i >= 0 && (d != c || !Hit(from, |v|, i, length)) ==>
                data[d, Slot(i, length)] == old(data[d, Slot(i, length)])
    {
      var pos := Slot(from, length);
      var first := Min(|v|, length - pos);
      CopyIn(c, pos, v[..first]);
      CopyIn(c, 0, v[first..]);
      forall i | from <= i < from + |v| ensures data[c, Slot(i, length)] == v[i - from] {
        SlotFrom(from, i - from, length);
      }
      forall d, i | 0 <= d < data.Length0 && i >= 0 && (d != c || !Hit(from, |v|, i, length))
        ensures data[d, Slot(i, length)] == old(data[d, Slot(i, length)])
      {
        if d == c { NotOverwritten(from, |v|, i, length); }
      }
    }

    /** What the line gives for sample i of a channel: the sample written last while it holds it, else silence. */
    ghost predicate Gives(c: nat, i: nat, x: real)
      reads this
    {
      if started && c < channels && start <= i < end then c < |vals| ==> i in vals[c] ==> x == vals[c][i] else x == 0.0
    }

    /** The line covers the samples [first, to). */
    predicate Holds(first: nat, to: nat)
      reads this
    {
      started && first <= to && first >= start && to <= end
    }

    /** Samples [first, first + count) of a channel into out[at ..]. */
    method Read(c: nat, first: nat, count: nat, out: array<real>, at: nat)
      requires Valid() && at + count <= out.Length
      modifies out
      ensures forall k :: at <= k < at + count ==> Gives(c, first + (k - at), out[k])
      ensures Complete() && Holds(first, first + count) && c < channels ==>
                forall k :: at <= k < at + count ==> first + (k - at) in vals[c] && out[k] == vals[c][first + (k - at)]
      ensures forall k :: 0 <= k < out.Length && !(at <= k < at + count) ==> out[k] == old(out[k])
    {
      var from, to := Max(first, start), Min(first + count, end);
      if !started || c >= channels || from >= to {
        Fill(out, at, count);
        return;
      }
      var head, held := from - first, to - from;
      Fill(out, at, head);
      Fill(out, at + head + held, count - head - held);
      RingOut(c, from, held, out, at + head);
      forall k | at <= k < at + count ensures Gives(c, first + (k - at), out[k]) {
        var s := k - at;
        if head <= s < head + held {
          assert Kept(c, first + s);
          assert first + s == from + (k - (at + head));
        }
      }
    }

    /** The ring from the place of sample `from` on, around its end. */
    method RingOut(c: nat, from: nat, count: nat, out: array<real>, at: nat)
      requires length > 0 && c < data.Length0 && data.Length1 == length && count <= length && at + count <= out.Length
      modifies out
      ensures forall k :: 0 <= k < out.Length ==> out[k] == if at <= k < at + count then data[c, Slot(from + (k - at), length)] else old(out[k])
    {
      var pos := Slot(from, length);
      var part := Min(count, length - pos);
      CopyOut(c, pos, part, out, at);
      CopyOut(c, 0, count - part, out, at + part);
      forall k | at <= k < at + count ensures out[k] == data[c, Slot(from + (k - at), length)] {
        SlotFrom(from, k - at, length);
      }
    }

    method Fill(out: array<real>, at: nat, count: nat)
      requires at + count <= out.Length
      modifies out
      ensures forall k :: 0 <= k < out.Length ==> out[k] == if at <= k < at + count then 0.0 else old(out[k])
    {
      for s := 0 to count
        invariant forall k :: 0 <= k < out.Length ==> out[k] == if at <= k < at + s then 0.0 else old(out[k])
      {
        out[at + s] := 0.0;
      }
    }

    method CopyOut(c: nat, pos: nat, count: nat, out: array<real>, at: nat)
      requires c < data.Length0 && pos + count <= data.Length1 && at + count <= out.Length
      modifies out
      ensures forall k :: 0 <= k < out.Length ==> out[k] == if at <= k < at + count then data[c, pos + (k - at)] else old(out[k])
    {
      for s := 0 to count
        invariant forall k :: 0 <= k < out.Length ==> out[k] == if at <= k < at + s then data[c, pos + (k - at)] else old(out[k])
      {
        out[at + s] := data[c, pos + s];
      }
    }

    /** A row of sound of the input's channel `source` (from 1), or of silence. */
    ghost predicate RowGiven(source: int, first: nat, row: seq<real>)
      reads this
    {
      forall s :: 0 <= s < |row| ==> if 1 <= source <= channels then Gives(source - 1, first + s, row[s]) else row[s] == 0.0
    }

    method ReadRow(source: int, first: nat, n: nat, out: array<real>, at: nat)
      requires Valid() && at + n <= out.Length
      modifies out
      ensures RowGiven(source, first, out[at..at + n])
      ensures forall k :: 0 <= k < out.Length && !(at <= k < at + n) ==> out[k] == old(out[k])
    {
      if 1 <= source <= channels {
        Read(source - 1, first, n, out, at);
      } else {
        Fill(out, at, n);
      }
    }

    /** An input's sound for an output: row c is the input's channel sources[c], or silence. */
    method ReadMapped(sources: seq<int>, first: nat, n: nat, out: array<real>)
      requires Valid() && out.Length == RowAt(|sources|, n)
      modifies out
      ensures forall c :: 0 <= c < |sources| ==> RowAt(c, n) + n <= out.Length && RowGiven(sources[c], first, out[RowAt(c, n)..RowAt(c, n) + n])
    {
      hide RowAt, RowGiven, Kept, Valid, Slot;
      RowsInOrder(0, n);
      for c := 0 to |sources|
        invariant RowAt(c, n) <= out.Length
        invariant forall d :: 0 <= d < c ==> RowAt(d, n) + n <= RowAt(c, n) && RowGiven(sources[d], first, out[RowAt(d, n)..RowAt(d, n) + n])
      {
        RowsInOrder(c, n);
        RowsInOrder(|sources|, n);
        ghost var before := out[..];
        ReadRow(sources[c], first, n, out, RowAt(c, n));
        forall d | 0 <= d < c ensures out[RowAt(d, n)..RowAt(d, n) + n] == before[RowAt(d, n)..RowAt(d, n) + n] {
        }
      }
    }

    method CopyIn(c: nat, pos: nat, v: seq<real>)
      requires c < data.Length0 && pos + |v| <= data.Length1
      modifies data
      ensures forall d, p :: 0 <= d < data.Length0 && 0 <= p < data.Length1 ==>
                data[d, p] == if d == c && pos <= p < pos + |v| then v[p - pos] else old(data[d, p])
    {
      for s := 0 to |v|
        invariant forall d, p :: 0 <= d < data.Length0 && 0 <= p < data.Length1 ==>
                    data[d, p] == if d == c && pos <= p < pos + s then v[p - pos] else old(data[d, p])
      {
        data[c, pos + s] := v[s];
      }
    }
  }

  /** What the ring holds of a channel after values were written from `index` on. */
  ghost function Overwritten(m: map<int, real>, length: nat, index: nat, values: seq<real>): (r: map<int, real>)
    requires length > 0
    ensures var (end, count) := (index + |values|, Min(|values|, length));
            && (forall i :: i in r <==> end - count <= i < end || (i in m && i >= 0 && !Hit(end - count, count, i, length)))
            && (forall i :: i in r ==> r[i] == if end - count <= i < end then values[i - index] else m[i])
  {
    var (end, count) := (index + |values|, Min(|values|, length));
    map i | i in m.Keys + Span(end - count, end) && (end - count <= i < end || (i >= 0 && !Hit(end - count, count, i, length)))
      :: if end - count <= i < end then values[i - index] else m[i]
  }

  /** Of what was there and what is written the newest ring of samples is there. */
  lemma NewestStay(m: map<int, real>, length: nat, from: nat, v: seq<real>, i: nat)
    requires length > 0 && from + |v| <= i + length && (from <= i < from + |v| || (i in m && i < from + length))
    ensures var r := Overwritten(m, length, from, v);
            i in r && if from <= i < from + |v| then r[i] == v[i - from] else i in m && r[i] == m[i]
  {
    hide Hit;
    var count := Min(|v|, length);
    if i < from || from + |v| <= i { ApartIsSafe(from + |v| - count, count, i, length); }
  }

  function Span(lo: int, hi: int): (r: set<int>)
    ensures forall i :: i in r <==> lo <= i < hi
    decreases hi - lo
  {
    if lo >= hi then {} else Span(lo, hi - 1) + {hi - 1}
  }

  // ---- the delayed window ------------------------------------------------------------------------

  function InputIndexFor(output: nat, latency: int): nat {
    var l := if latency < 0 then 0 else latency;
    if output >= l then output - l else 0
  }

  /** The input samples of output grain `index`, `delay` samples late. */
  function DelayedSamples(rate: Rate, index: nat, latency: int, delay: nat): Range {
    var span := GrainSamples(rate, InputIndexFor(index, latency));
    Range(if span.first > delay then span.first - delay else 0, if span.end > delay then span.end - delay else 0)
  }

  /** The longest delay and latency + 3 grains. */
  function LineLength(rate: Rate, latency: int, maxDelayMs: nat): int
    requires rate.Ok()
  {
    maxDelayMs * 48 + (latency + 3) * GrainMax(rate)
  }

  /** The line that was filled to the end of a grain's input holds the grain's window at any delay up to the
      longest one exactly when its history without a gap goes back as far. */
  lemma WindowIsHeld(rate: Rate, index: nat, latency: int, delay: nat, maxDelayMs: nat, since: nat, start: int)
    requires rate.Ok() && latency >= 0 && delay <= maxDelayMs * 48
    requires var end := DelayedSamples(rate, index, latency, 0).end;
             since <= end && start == Max(since, end - LineLength(rate, latency, maxDelayMs))
    ensures var window := DelayedSamples(rate, index, latency, delay);
            && window.first <= window.end <= DelayedSamples(rate, index, latency, 0).end
            && (start <= window.first <==> since <= window.first)
  {
    hide GrainSamples, GrainMax;
    var i := InputIndexFor(index, latency);
    GrainIsBounded(rate, i);
    Times2(latency + 2, GrainMax(rate));
    assert (latency + 3) * GrainMax(rate) == (latency + 2) * GrainMax(rate) + GrainMax(rate);
  }

  lemma Times2(a: nat, b: nat)
    ensures a * b >= 0
  {
  }

  /** The input channel of each PGM channel (0: silence): a mono input on all, else channel for channel, or as mapped. */
  method ChannelMap(wanted: seq<int>, pgmChannels: nat, inputChannels: nat) returns (sources: seq<int>)
    ensures |sources| == pgmChannels
    ensures forall c :: 0 <= c < pgmChannels ==> 0 <= sources[c] <= inputChannels
    ensures wanted == [] && inputChannels == 1 ==> forall c :: 0 <= c < pgmChannels ==> sources[c] == 1
    ensures wanted == [] && inputChannels != 1 ==> forall c :: 0 <= c < pgmChannels ==> sources[c] == if c < inputChannels then c + 1 else 0
    ensures wanted != [] ==> forall c :: 0 <= c < pgmChannels ==>
              sources[c] == if c < |wanted| && 1 <= wanted[c] <= inputChannels then wanted[c] else 0
  {
    sources := seq(pgmChannels, c => 0);
    for c := 0 to pgmChannels
      invariant |sources| == pgmChannels
      invariant forall d :: 0 <= d < c ==> 0 <= sources[d] <= inputChannels
      invariant wanted == [] && inputChannels == 1 ==> forall d :: 0 <= d < c ==> sources[d] == 1
      invariant wanted == [] && inputChannels != 1 ==> forall d :: 0 <= d < c ==> sources[d] == if d < inputChannels then d + 1 else 0
      invariant wanted != [] ==> forall d :: 0 <= d < c ==> sources[d] == if d < |wanted| && 1 <= wanted[d] <= inputChannels then wanted[d] else 0
    {
      var v := 0;
      if |wanted| == 0 {
        v := if inputChannels == 1 then 1 else c + 1;
      } else if c < |wanted| {
        v := wanted[c];
      }
      sources := sources[c := if v >= 1 && v <= inputChannels then v else 0];
    }
  }
}

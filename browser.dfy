/**
 * The parts of the browser the settings store touches: the root element's
 * class list and inline font size, the `localStorage` key-value store, and
 * an audio output that records the tones it is asked to play.
 */
module Browser {
  import opened Wrappers

  /** A class list holds each token at most once. */
  predicate NoDuplicates(s: seq<string>) {
    forall i, j :: 0 <= i < j < |s| ==> s[i] != s[j]
  }

  /** `s` with every token of `ts` taken out, the others kept in order. */
  function Without(s: seq<string>, ts: set<string>): (r: seq<string>)
    ensures forall x :: x in r <==> x in s && x !in ts
    ensures |r| <= |s|
  {
    if s == [] then []
    else (if s[0] in ts then [] else [s[0]]) + Without(s[1..], ts)
  }

  lemma {:induction false} WithoutNoDuplicates(s: seq<string>, ts: set<string>)
    requires NoDuplicates(s)
    ensures NoDuplicates(Without(s, ts))
    decreases |s|
  {
    if s != [] {
      WithoutNoDuplicates(s[1..], ts);
      assert s[0] !in s[1..] by {
        forall j | 0 <= j < |s[1..]| ensures s[1..][j] != s[0] {
          assert s[1..][j] == s[j + 1];
        }
      }
    }
  }

  /** `s` with `t` appended, unless `t` is already there (then `s` is unchanged). */
  function Added(s: seq<string>, t: string): (r: seq<string>)
    ensures forall x :: x in r <==> x in s || x == t
    ensures t in s ==> r == s
  {
    if t in s then s else s + [t]
  }

  lemma AddedNoDuplicates(s: seq<string>, t: string)
    requires NoDuplicates(s)
    ensures NoDuplicates(Added(s, t))
  {
  }

  /** Adding a token of `ts` and then taking out `ts` leaves what taking out `ts` alone leaves. */
  lemma WithoutAdded(s: seq<string>, t: string, ts: set<string>)
    requires t in ts
    ensures Without(Added(s, t), ts) == Without(s, ts)
  {
    if t !in s {
      WithoutAppend(s, t, ts);
    }
  }

  lemma {:induction false} WithoutAppend(s: seq<string>, t: string, ts: set<string>)
    requires t in ts
    ensures Without(s + [t], ts) == Without(s, ts)
    decreases |s|
  {
    if s == [] {
      assert Without([t], ts) == [] + Without([], ts);
    } else {
      assert (s + [t])[1..] == s[1..] + [t];
      WithoutAppend(s[1..], t, ts);
    }
  }

  /** Taking out the tokens of `a` and then those of `b` is taking out those of both. */
  lemma {:induction false} WithoutWithout(s: seq<string>, a: set<string>, b: set<string>)
    ensures Without(Without(s, a), b) == Without(s, a + b)
    decreases |s|
  {
    if s != [] {
      WithoutWithout(s[1..], a, b);
      var head := if s[0] in a then [] else [s[0]];
      WithoutConcat(head, Without(s[1..], a), b);
    }
  }

  lemma {:induction false} WithoutConcat(s: seq<string>, u: seq<string>, ts: set<string>)
    ensures Without(s + u, ts) == Without(s, ts) + Without(u, ts)
    decreases |s|
  {
    if s == [] {
      assert s + u == u;
    } else {
      assert (s + u)[0] == s[0];
      assert (s + u)[1..] == s[1..] + u;
      WithoutConcat(s[1..], u, ts);
    }
  }

  /** Taking out tokens that do not occur changes nothing. */
  lemma {:induction false} WithoutAbsent(s: seq<string>, ts: set<string>)
    requires forall i :: 0 <= i < |s| ==> s[i] !in ts
    ensures Without(s, ts) == s
    decreases |s|
  {
    if s != [] {
      WithoutAbsent(s[1..], ts);
      assert s == [s[0]] + s[1..];
    }
  }

  /** The document's root element: its class list and its inline font size. */
  class RootElement {
    var classList: seq<string>
    var fontSize: string

    ghost predicate Valid()
      reads this
    {
      NoDuplicates(classList)
    }

    constructor (classes: seq<string>)
      requires NoDuplicates(classes)
      ensures Valid() && classList == classes && fontSize == ""
    {
      classList := classes;
      fontSize := "";
    }

    /** `classList.add(token)`. */
    method Add(token: string)
      requires Valid()
      modifies this
      ensures Valid()
      ensures classList == Added(old(classList), token) && fontSize == old(fontSize)
    {
      AddedNoDuplicates(classList, token);
      classList := Added(classList, token);
    }

    /** `classList.remove(...tokens)`. */
    method Remove(tokens: set<string>)
      requires Valid()
      modifies this
      ensures Valid()
      ensures classList == Without(old(classList), tokens) && fontSize == old(fontSize)
    {
      WithoutNoDuplicates(classList, tokens);
      classList := Without(classList, tokens);
    }

    /** `style.fontSize = value`. */
    method SetFontSize(value: string)
      requires Valid()
      modifies this
      ensures Valid()
      ensures fontSize == value && classList == old(classList)
    {
      fontSize := value;
    }
  }

  /** `window.localStorage`: string values under string keys. */
  class LocalStorage {
    var items: map<string, string>

    constructor (initial: map<string, string>)
      ensures items == initial
    {
      items := initial;
    }

    /** `getItem(key)`: the stored text, or None (`null`) when there is none. */
    function GetItem(key: string): (r: Option<string>)
      reads this
      ensures r.Some? <==> key in items
      ensures r.Some? ==> r.value == items[key]
    {
      if key in items then Some(items[key]) else None
    }

    /** `setItem(key, value)`. */
    method SetItem(key: string, value: string)
      modifies this
      ensures items == old(items)[key := value]
    {
      items := items[key := value];
    }
  }

  /**
   * A tone as the feedback sound schedules it: frequency in hertz, gain in
   * thousandths at the start and at the end of its exponential ramp, and
   * duration in milliseconds.
   */
  datatype Tone = Tone(frequencyHz: nat, startGainMilli: nat, endGainMilli: nat, durationMs: nat)

  /** The audio output, as the list of tones it has been asked to play. */
  class AudioOutput {
    var played: seq<Tone>

    constructor ()
      ensures played == []
    {
      played := [];
    }

    /** One audio session that plays `tone` and stops. */
    method Play(tone: Tone)
      modifies this
      ensures played == old(played) + [tone]
    {
      played := played + [tone];
    }
  }
}

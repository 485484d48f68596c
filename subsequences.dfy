/**
 * Keeping the present entries of a sequence of optional values, in order.
 *
 * Both filters of the GPX loader (samples with an elevation, samples with a
 * time) and the batch loop that skips files without points are instances of
 * this one operation.
 */
module Subsequences {
  import opened Wrappers

  /** The values of the `Some` entries of `s`, in the order they occur. */
  function Keep<T>(s: seq<Option<T>>): (r: seq<T>)
    ensures |r| <= |s|
  {
    if s == [] then []
    else Keep(s[..|s| - 1]) + (if s[|s| - 1].Some? then [s[|s| - 1].value] else [])
  }

  /** Appending one more entry appends its value, if it has one. */
  lemma KeepAppend<T>(s: seq<Option<T>>, x: Option<T>)
    ensures Keep(s + [x]) == Keep(s) + (if x.Some? then [x.value] else [])
  {
  }

  /** Extending a prefix by one entry. */
  lemma KeepPrefixStep<T>(s: seq<Option<T>>, i: nat)
    requires i < |s|
    ensures Keep(s[..i + 1]) == Keep(s[..i]) + (if s[i].Some? then [s[i].value] else [])
  {
    assert s[..i + 1] == s[..i] + [s[i]];
    KeepAppend(s[..i], s[i]);
  }

  /**
   * The positions `Keep` takes its values from: strictly increasing, each one a
   * `Some` entry holding the value at that place of `Keep(s)`, and every `Some`
   * entry of `s` among them. So `Keep(s)` is exactly the subsequence of present
   * values, in their original order.
   */
  function KeptIndices<T>(s: seq<Option<T>>): (idx: seq<nat>)
    ensures |idx| == |Keep(s)|
    ensures forall k :: 0 <= k < |idx| ==> idx[k] < |s| && s[idx[k]] == Some(Keep(s)[k])
    ensures forall k, l :: 0 <= k < l < |idx| ==> idx[k] < idx[l]
    ensures forall i :: 0 <= i < |s| && s[i].Some? ==> i in idx
  {
    if s == [] then []
    else
      var init := s[..|s| - 1];
      var prev := KeptIndices(init);
      assert init + [s[|s| - 1]] == s;
      KeepAppend(init, s[|s| - 1]);
      assert forall i :: 0 <= i < |init| ==> init[i] == s[i];
      if s[|s| - 1].Some? then prev + [|s| - 1] else prev
  }

  /** Nothing is dropped exactly when every entry is present. */
  lemma {:induction false} KeepKeepsAll<T>(s: seq<Option<T>>)
    ensures |Keep(s)| == |s| <==> forall i :: 0 <= i < |s| ==> s[i].Some?
  {
    if s != [] {
      var init := s[..|s| - 1];
      KeepKeepsAll(init);
      if forall i :: 0 <= i < |s| ==> s[i].Some? {
        assert forall i :: 0 <= i < |init| ==> init[i].Some? by {
          forall i | 0 <= i < |init| ensures init[i].Some? {
            assert init[i] == s[i];
          }
        }
      } else {
        var j :| 0 <= j < |s| && s[j].None?;
        if j < |s| - 1 {
          assert init[j] == s[j];
          assert |Keep(init)| < |init|;
        }
      }
    }
  }
}

/** A priority chain: an ordered list of candidate sources for one value, where
    the first candidate that applies supplies the value and the rest are never
    consulted. Both decisions of the root pre-run hook (which log level, which
    configuration path) are chains of this kind; this module is the reference
    definition they are proved against. */
module Precedence {

  /** One source in a chain: whether it applies, and the value it supplies if it does. */
  datatype Candidate<T> = Candidate(applies: bool, value: T)

  /** No candidate of `chain` applies. */
  predicate NoneApplies<T>(chain: seq<Candidate<T>>) {
    forall j :: 0 <= j < |chain| ==> !chain[j].applies
  }

  /** The value of the first candidate that applies, or `fallback` when none does. */
  function FirstApplicable<T>(chain: seq<Candidate<T>>, fallback: T): (r: T)
    ensures forall i :: 0 <= i < |chain| && chain[i].applies && NoneApplies(chain[..i]) ==> r == chain[i].value
    ensures NoneApplies(chain) ==> r == fallback
  {
    if chain == [] then fallback
    else if chain[0].applies then chain[0].value
    else
      var r := FirstApplicable(chain[1..], fallback);
      assert forall i :: 1 <= i < |chain| && NoneApplies(chain[..i]) ==> NoneApplies(chain[1..][..i - 1]) by {
        forall i | 1 <= i < |chain| && NoneApplies(chain[..i])
          ensures NoneApplies(chain[1..][..i - 1])
        {
          assert chain[1..][..i - 1] == chain[..i][1..];
        }
      }
      assert NoneApplies(chain) ==> NoneApplies(chain[1..]) by {
        if NoneApplies(chain) {
          assert forall j :: 0 <= j < |chain| - 1 ==> chain[1..][j] == chain[j + 1];
        }
      }
      r
  }

  /** Short-circuit: once candidate `k` applies, neither the candidates after it
      nor the fallback can change the result. */
  lemma {:induction false} LaterCandidatesIgnored<T>(chain: seq<Candidate<T>>, k: nat, rest: seq<Candidate<T>>, fallback: T, other: T)
    requires k < |chain| && chain[k].applies
    ensures FirstApplicable(chain, fallback) == FirstApplicable(chain[..k + 1] + rest, other)
  {
    if !chain[0].applies {
      assert (chain[..k + 1] + rest)[1..] == chain[1..][..k] + rest;
      LaterCandidatesIgnored(chain[1..], k - 1, rest, fallback, other);
    }
  }
}

/**
 * `_pick`: the field-tolerant lookup every API mapper uses. It walks an ordered list of
 * candidate keys and takes the first value that is neither `None` nor the empty string.
 */
module FieldPicker {
  import opened PyText
  import opened JsonValues

  /** The test `val is not None and val != ""`. It is made BEFORE stripping, and a number
      or boolean never equals `""`, so `0`, `False` and `"  "` all qualify. */
  predicate Usable(v: Json) {
    v != JNull && v != JStr("")
  }

  /** `_pick(item, keys, default)`: the stripped text of the first candidate's value that
      is usable, else `default`. Missing keys read as `None`, so the lookup never fails. */
  function Pick(item: seq<Member>, keys: seq<string>, default: string): string {
    if keys == [] then default
    else
      var v := Get(item, keys[0]);
      if Usable(v) then Strip(Str(v)) else Pick(item, keys[1..], default)
  }

  /** When no candidate is usable the default comes back unchanged. */
  lemma {:induction false} PickNoneUsable(item: seq<Member>, keys: seq<string>, default: string)
    requires forall j :: 0 <= j < |keys| ==> !Usable(Get(item, keys[j]))
    ensures Pick(item, keys, default) == default
  {
    if keys != [] {
      assert !Usable(Get(item, keys[0]));
      PickNoneUsable(item, keys[1..], default);
    }
  }

  /** First match: the stripped `str()` of the value under the first usable candidate `keys[k]`
      is the answer, whatever the later candidates hold. */
  lemma {:induction false} PickFirstUsable(item: seq<Member>, keys: seq<string>, default: string, k: nat)
    requires k < |keys| && Usable(Get(item, keys[k]))
    requires forall j :: 0 <= j < k ==> !Usable(Get(item, keys[j]))
    ensures Pick(item, keys, default) == Strip(Str(Get(item, keys[k])))
  {
    if k > 0 {
      assert !Usable(Get(item, keys[0]));
      assert keys[1..][k - 1] == keys[k];
      PickFirstUsable(item, keys[1..], default, k - 1);
    }
  }

  /** An item that has none of the candidate keys gives back the default unchanged. */
  lemma PickMissingKeys(item: seq<Member>, keys: seq<string>, default: string)
    requires forall j, i :: 0 <= j < |keys| && 0 <= i < |item| ==> item[i].name != keys[j]
    ensures Pick(item, keys, default) == default
  {
    forall j | 0 <= j < |keys|
      ensures !Usable(Get(item, keys[j]))
    {
      GetAbsent(item, keys[j]);
    }
    PickNoneUsable(item, keys, default);
  }

  /** A whitespace-only string under the first candidate key wins and yields `""`, even when
      a later candidate holds real text: emptiness is tested before stripping. */
  lemma PickBlankStringWins(item: seq<Member>, keys: seq<string>, default: string, blank: string)
    requires |keys| > 0 && Get(item, keys[0]) == JStr(blank)
    requires blank != [] && forall i :: 0 <= i < |blank| ==> IsSpace(blank[i])
    ensures Pick(item, keys, default) == ""
  {
    StripAllSpaces(blank);
  }

  /** A number or boolean under the first candidate key wins with its Python text, e.g. `0`
      gives `"0"` and `False` gives `"False"`; neither falls through to the default. */
  lemma PickScalarWins(item: seq<Member>, keys: seq<string>, default: string)
    requires |keys| > 0 && (Get(item, keys[0]).JInt? || Get(item, keys[0]).JBool?)
    ensures Pick(item, keys, default) == Str(Get(item, keys[0]))
    ensures Pick(item, keys, default) != ""
  {
    StrOfScalarIsTrimmed(Get(item, keys[0]));
  }

  /** A JSON `null` is skipped exactly like a missing key. */
  lemma PickSkipsNull(item: seq<Member>, keys: seq<string>, default: string)
    requires |keys| > 0 && Get(item, keys[0]) == JNull
    ensures Pick(item, keys, default) == Pick(item, keys[1..], default)
  {
  }

  /** The picked text is always stripped, unless it is the default, which is returned as given. */
  lemma {:induction false} PickIsStrippedOrDefault(item: seq<Member>, keys: seq<string>, default: string)
    ensures var r := Pick(item, keys, default);
            r == default || Strip(r) == r
  {
    if keys != [] {
      var v := Get(item, keys[0]);
      if Usable(v) {
        StripIdempotent(Str(v));
      } else {
        PickIsStrippedOrDefault(item, keys[1..], default);
      }
    }
  }
}

/**
 * The saved player-name list. Storage is abstracted to the value that
 * `JSON.parse` makes of the stored text; the only logic of the core here is
 * the filter `getSavedNames` applies to a parsed array.
 */
module Persistence {
  import opened Text

  /** One element of a parsed JSON array: a string, or any value that is not a string. */
  datatype JsonValue = JString(s: string) | JNonString

  /** What the storage key yields once read and parsed. */
  datatype Stored =
    | Absent          // no item, or an empty item
    | Unparsable      // `JSON.parse` threw
    | NonArray        // parsed, but not an array
    | JsonArray(items: seq<JsonValue>)

  /** An entry `getSavedNames` keeps: a string with non-blank content. */
  predicate IsUsableName(v: JsonValue) {
    v.JString? && Trim(v.s) != []
  }

  /**
   * `parsed.filter(n => typeof n === 'string' && n.trim().length > 0)`:
   * at most one name per entry, and none of them blank.
   */
  function FilterNames(items: seq<JsonValue>): (names: seq<string>)
    ensures |names| <= |items|
    ensures forall i :: 0 <= i < |names| ==> Trim(names[i]) != []
  {
    if items == [] then []
    else (if IsUsableName(items[0]) then [items[0].s] else []) + FilterNames(items[1..])
  }

  /** The kept names are exactly the non-blank strings among the entries. */
  lemma {:induction false} FilterNamesMembers(items: seq<JsonValue>)
    ensures forall n :: n in FilterNames(items) <==> JString(n) in items && Trim(n) != []
  {
    if items != [] {
      FilterNamesMembers(items[1..]);
      assert forall v :: v in items <==> v == items[0] || v in items[1..];
    }
  }

  /** `getSavedNames`: every failure and every non-array document gives the empty list. */
  function LoadNames(stored: Stored): (names: seq<string>)
    ensures forall i :: 0 <= i < |names| ==> Trim(names[i]) != []
    ensures !stored.JsonArray? ==> names == []
  {
    match stored
    case JsonArray(items) => FilterNames(items)
    case _ => []
  }

  /** What `saveNamesToStorage` leaves under the key: the names as a JSON array of strings. */
  function SaveNames(names: seq<string>): (stored: Stored)
    ensures stored.JsonArray? && |stored.items| == |names|
  {
    JsonArray(seq(|names|, i requires 0 <= i < |names| => JString(names[i])))
  }

  /** The filter keeps order: filtering a concatenation concatenates the filtered parts. */
  lemma {:induction false} FilterNamesAppend(a: seq<JsonValue>, b: seq<JsonValue>)
    ensures FilterNames(a + b) == FilterNames(a) + FilterNames(b)
  {
    if a == [] {
      assert a + b == b;
    } else {
      assert (a + b)[0] == a[0];
      assert (a + b)[1..] == a[1..] + b;
      FilterNamesAppend(a[1..], b);
    }
  }

  /** Entries that are not usable names contribute nothing. */
  lemma {:induction false} FilterNamesDropsUnusable(items: seq<JsonValue>)
    requires forall i :: 0 <= i < |items| ==> !IsUsableName(items[i])
    ensures FilterNames(items) == []
  {
    if items != [] {
      FilterNamesDropsUnusable(items[1..]);
    }
  }

  /** Names written by a save are read back unchanged, in order, when none is blank. */
  lemma {:induction false} LoadAfterSave(names: seq<string>)
    requires forall i :: 0 <= i < |names| ==> Trim(names[i]) != []
    ensures LoadNames(SaveNames(names)) == names
  {
    if names != [] {
      var items := SaveNames(names).items;
      assert IsUsableName(items[0]) && items[0].s == names[0];
      assert items[1..] == SaveNames(names[1..]).items;
      LoadAfterSave(names[1..]);
    }
  }
}

/** The validator shape both transaction-entry surfaces share: a fresh record is filled
    key by key, checking a fixed list of fields in turn and assigning the message of each
    one that fails. Since every assigned key is new, the record lists exactly the failing
    fields, each once, in the order they were checked. */
module Validation {
  import opened JsRuntime

  /** Checks the keys `ks` in turn, giving each failing one an entry with its message. */
  function ErrorsOver<K>(fails: K -> bool, message: K -> string, ks: seq<K>): Entries<K> {
    if ks == [] then []
    else if fails(ks[0]) then [(ks[0], message(ks[0]))] + ErrorsOver(fails, message, ks[1..])
    else ErrorsOver(fails, message, ks[1..])
  }

  /** One conditional assignment `newErrors.k = message`. */
  function Entry<K>(fails: K -> bool, message: K -> string, k: K): Entries<K> {
    if fails(k) then [(k, message(k))] else []
  }

  /** Every entry is a checked key that fails, holding that key's message. */
  lemma {:induction false} ErrorsOverSound<K>(fails: K -> bool, message: K -> string, ks: seq<K>)
    ensures forall i :: 0 <= i < |ErrorsOver(fails, message, ks)| ==>
      var p := ErrorsOver(fails, message, ks)[i]; p.0 in ks && fails(p.0) && p.1 == message(p.0)
  {
    if ks != [] {
      ErrorsOverSound(fails, message, ks[1..]);
    }
  }

  /** Every checked key that fails has an entry. */
  lemma {:induction false} ErrorsOverComplete<K>(fails: K -> bool, message: K -> string, ks: seq<K>, k: K)
    requires k in ks && fails(k)
    ensures k in Keys(ErrorsOver(fails, message, ks))
  {
    var rest := ErrorsOver(fails, message, ks[1..]);
    if fails(ks[0]) {
      assert Keys(ErrorsOver(fails, message, ks)) == [ks[0]] + Keys(rest);
    }
    if k != ks[0] {
      ErrorsOverComplete(fails, message, ks[1..], k);
    }
  }

  /** The keys rise strictly in `rank`: no key appears twice and their order is fixed. */
  predicate Increasing<K>(rank: K -> nat, ks: seq<K>) {
    forall i, j :: 0 <= i < j < |ks| ==> rank(ks[i]) < rank(ks[j])
  }

  /** Entries come in the order the keys were checked. */
  lemma {:induction false} ErrorsOverOrdered<K>(fails: K -> bool, message: K -> string, rank: K -> nat, ks: seq<K>)
    requires Increasing(rank, ks)
    ensures Increasing(rank, Keys(ErrorsOver(fails, message, ks)))
  {
    if ks != [] {
      ErrorsOverOrdered(fails, message, rank, ks[1..]);
      ErrorsOverSound(fails, message, ks[1..]);
      var rest := ErrorsOver(fails, message, ks[1..]);
      if fails(ks[0]) {
        var ek := Keys(ErrorsOver(fails, message, ks));
        assert ek == [ks[0]] + Keys(rest);
        forall j | 0 < j < |ek| ensures rank(ek[0]) < rank(ek[j]) {
          assert ek[j] == rest[j - 1].0;
          var m :| 0 <= m < |ks[1..]| && ks[1..][m] == ek[j];
        }
      }
    }
  }

  /** How the record grows by one checked key. */
  lemma ErrorsOverFirst<K>(fails: K -> bool, message: K -> string, ks: seq<K>)
    requires ks != []
    ensures ErrorsOver(fails, message, ks) == Entry(fails, message, ks[0]) + ErrorsOver(fails, message, ks[1..])
  {
  }

  /** The record of four checks, spelled out the way a handler fills it. */
  lemma ErrorsOverFour<K>(fails: K -> bool, message: K -> string, ks: seq<K>)
    requires |ks| == 4
    ensures ErrorsOver(fails, message, ks) ==
      Entry(fails, message, ks[0]) + Entry(fails, message, ks[1]) +
      Entry(fails, message, ks[2]) + Entry(fails, message, ks[3])
  {
    var ks1 := ks[1..];
    var ks2 := ks1[1..];
    var ks3 := ks2[1..];
    assert ks1[0] == ks[1] && ks2[0] == ks[2] && ks3[0] == ks[3] && ks3[1..] == [];
    ErrorsOverFirst(fails, message, ks);
    ErrorsOverFirst(fails, message, ks1);
    ErrorsOverFirst(fails, message, ks2);
    ErrorsOverFirst(fails, message, ks3);
  }

  /** The listed messages of four checks: those of the failing keys, in checking order. */
  lemma MessagesOfFour<K>(fails: K -> bool, message: K -> string, ks: seq<K>)
    requires |ks| == 4
    ensures Messages(ErrorsOver(fails, message, ks)) ==
      Listed(fails, message, ks[0]) + Listed(fails, message, ks[1]) +
      Listed(fails, message, ks[2]) + Listed(fails, message, ks[3])
  {
    ErrorsOverFour(fails, message, ks);
    var t, c, d, a := Entry(fails, message, ks[0]), Entry(fails, message, ks[1]),
      Entry(fails, message, ks[2]), Entry(fails, message, ks[3]);
    MessagesAppend(t, c);
    MessagesAppend(t + c, d);
    MessagesAppend(t + c + d, a);
    assert Messages(t) == Listed(fails, message, ks[0]);
    assert Messages(c) == Listed(fails, message, ks[1]);
    assert Messages(d) == Listed(fails, message, ks[2]);
    assert Messages(a) == Listed(fails, message, ks[3]);
  }

  /** The message one key contributes to the list. */
  function Listed<K>(fails: K -> bool, message: K -> string, k: K): seq<string> {
    if fails(k) then [message(k)] else []
  }
}

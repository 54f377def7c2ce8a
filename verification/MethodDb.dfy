module MethodDb {
  // The table of SIP methods and the perfect hash that looks names up in it
  // (usipy_sip_method_db.c).

  import opened TurboCompare

  datatype MethodType =
    | Generic | Ack | Bye | Cancel | Info | Invite | Notify | Options | Prack | Refer
    | Register | Subscribe

  function NameOf(m: MethodType): seq<bv8> {
    match m
    case Generic => []
    case Ack => [0x41, 0x43, 0x4B]
    case Bye => [0x42, 0x59, 0x45]
    case Cancel => [0x43, 0x41, 0x4E, 0x43, 0x45, 0x4C]
    case Info => [0x49, 0x4E, 0x46, 0x4F]
    case Invite => [0x49, 0x4E, 0x56, 0x49, 0x54, 0x45]
    case Notify => [0x4E, 0x4F, 0x54, 0x49, 0x46, 0x59]
    case Options => [0x4F, 0x50, 0x54, 0x49, 0x4F, 0x4E, 0x53]
    case Prack => [0x50, 0x52, 0x41, 0x43, 0x4B]
    case Refer => [0x52, 0x45, 0x46, 0x45, 0x52]
    case Register => [0x52, 0x45, 0x47, 0x49, 0x53, 0x54, 0x45, 0x52]
    case Subscribe => [0x53, 0x55, 0x42, 0x53, 0x43, 0x52, 0x49, 0x42, 0x45]
  }

  // The table in its own order
  const TABLE: seq<MethodType> :=
    [Generic, Ack, Bye, Cancel, Info, Invite, Notify, Options, Prack, Refer, Register, Subscribe]

  // The simple lookup: down the table, ignoring case
  function ScanFrom(name: seq<bv8>, i: nat): MethodType
    requires i <= |TABLE|
    decreases |TABLE| - i
  {
    if i == |TABLE| then Generic
    else if SameFolded(name, NameOf(TABLE[i])) then TABLE[i]
    else ScanFrom(name, i + 1)
  }

  function Scan(name: seq<bv8>): MethodType {
    ScanFrom(name, 0)
  }

  // --- The hash

  function AssoValue(b: bv8): nat {
    if b == 0x41 || b == 0x61 then 10
    else if b in {0x42, 0x49, 0x4F, 0x52, 0x53, 0x62, 0x69, 0x6F, 0x72, 0x73} then 0
    else if b in {0x43, 0x50, 0x63, 0x70} then 5
    else 14
  }

  function MethodHash(name: seq<bv8>): nat
    requires |name| > 0
  {
    |name| + AssoValue(name[0])
  }

  const WORD_LIST: seq<MethodType> :=
    [Generic, Generic, Generic, Bye, Info, Refer, Invite, Options, Register, Subscribe,
     Prack, Cancel, Generic, Ack]

  // usipy_method_db_lookup
  function HashLookup(name: seq<bv8>): MethodType {
    if |name| == 6 && SameFolded(name, NameOf(Notify)) then Notify
    else if 3 <= |name| <= 9 && MethodHash(name) <= 13 then
      var m := WORD_LIST[MethodHash(name)];
      if |NameOf(m)| == |name| && SameFolded(name, NameOf(m)) then m else Generic
    else Generic
  }

  // The same, with the comparisons made a word at a time
  method Lookup(name: seq<bv8>) returns (m: MethodType)
    ensures m == HashLookup(name)
  {
    if |name| == 6 {
      var c := CaseCompare(name, NameOf(Notify));
      if c == 0 {
        return Notify;
      }
    }
    if 3 <= |name| <= 9 {
      var key := MethodHash(name);
      if key <= 13 {
        m := WORD_LIST[key];
        if |NameOf(m)| == |name| {
          var c := CaseCompare(name, NameOf(m));
          if c == 0 {
            return;
          }
        }
      }
    }
    m := Generic;
  }

  // --- The hash is right

  // The hash does not see case
  lemma AssoFolds(a: bv8, b: bv8)
    requires Fold(a) == Fold(b)
    ensures AssoValue(a) == AssoValue(b)
  {
  }

  lemma HashFolds(s: seq<bv8>, t: seq<bv8>)
    requires SameFolded(s, t) && |s| > 0
    ensures MethodHash(s) == MethodHash(t)
  {
    AssoFolds(s[0], t[0]);
  }

  // Every method but NOTIFY is where its own name hashes to
  lemma HashPerfect(m: MethodType)
    requires !m.Generic? && !m.Notify?
    ensures 3 <= |NameOf(m)| <= 9 && MethodHash(NameOf(m)) <= 13
    ensures WORD_LIST[MethodHash(NameOf(m))] == m
  {
  }

  lemma FoldTrans(s: seq<bv8>, t: seq<bv8>, u: seq<bv8>)
    requires SameFolded(s, t) && SameFolded(s, u)
    ensures SameFolded(t, u)
  {
  }

  // No two methods differ in case only
  lemma NamesDiffer(m: MethodType, n: MethodType)
    requires SameFolded(NameOf(m), NameOf(n))
    ensures m == n
  {
    if !m.Generic? && !n.Generic? {
      assert Fold(NameOf(m)[0]) == Fold(NameOf(n)[0]);
    }
  }

  lemma InTable(m: MethodType) returns (i: nat)
    ensures i < |TABLE| && TABLE[i] == m
  {
    i := match m
      case Generic => 0
      case Ack => 1
      case Bye => 2
      case Cancel => 3
      case Info => 4
      case Invite => 5
      case Notify => 6
      case Options => 7
      case Prack => 8
      case Refer => 9
      case Register => 10
      case Subscribe => 11;
  }

  lemma {:induction false} ScanFinds(name: seq<bv8>, i: nat, m: MethodType, at: nat)
    requires i <= at < |TABLE| && TABLE[at] == m && SameFolded(name, NameOf(m))
    ensures ScanFrom(name, i) == m
    decreases at - i
  {
    hide NameOf, SameFolded;
    if SameFolded(name, NameOf(TABLE[i])) {
      FoldTrans(name, NameOf(TABLE[i]), NameOf(m));
      NamesDiffer(TABLE[i], m);
    } else {
      ScanFinds(name, i + 1, m, at);
    }
  }

  lemma {:induction false} ScanMeans(name: seq<bv8>, i: nat)
    requires i <= |TABLE|
    ensures var m := ScanFrom(name, i); m.Generic? || SameFolded(name, NameOf(m))
    decreases |TABLE| - i
  {
    hide NameOf, SameFolded;
    if i < |TABLE| && !SameFolded(name, NameOf(TABLE[i])) {
      ScanMeans(name, i + 1);
    }
  }

  // A name is found exactly if it is that of a method, whatever its case
  lemma ScanRight(name: seq<bv8>, m: MethodType)
    requires !m.Generic?
    ensures Scan(name) == m <==> SameFolded(name, NameOf(m))
  {
    ScanMeans(name, 0);
    if SameFolded(name, NameOf(m)) {
      var i := InTable(m);
      ScanFinds(name, 0, m, i);
    }
  }

  lemma HashFinds(name: seq<bv8>, m: MethodType)
    requires !m.Generic? && SameFolded(name, NameOf(m))
    ensures HashLookup(name) == m
  {
    hide NameOf, MethodHash;
    if SameFolded(name, NameOf(Notify)) {
      FoldTrans(name, NameOf(Notify), NameOf(m));
      NamesDiffer(Notify, m);
      NotifyLength();
    } else {
      HashPerfect(m);
      HashFolds(name, NameOf(m));
    }
  }

  lemma NotifyLength()
    ensures |NameOf(Notify)| == 6
  {
  }

  // The perfect hash finds what the scan finds, for every name
  lemma HashIsScan(name: seq<bv8>)
    ensures HashLookup(name) == Scan(name)
  {
    hide NameOf, MethodHash;
    var m := Scan(name);
    ScanMeans(name, 0);
    if !m.Generic? {
      HashFinds(name, m);
    } else if !HashLookup(name).Generic? {
      ScanRight(name, HashLookup(name));
    }
  }
}

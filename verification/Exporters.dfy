/** The comma-separated list of push exporters: trimmed, filtered and without duplicates. */
module Exporters {
  import opened Text
  import opened Sequences

  predicate Wanted(k: string) {
    k != "" && k != "prometheus"
  }

  function TrimAll(parts: seq<string>): seq<string> {
    if parts == [] then [] else TrimAll(Front(parts)) + [TrimSpace(Last(parts))]
  }

  function Entries(s: string): seq<string> {
    TrimAll(Split(s, ','))
  }

  /** The wanted entries, each at its first occurrence. */
  function Select(entries: seq<string>): seq<string> {
    if entries == [] then []
    else
      var out, k := Select(Front(entries)), Last(entries);
      if Wanted(k) && k !in out then out + [k] else out
  }

  function PushExporters(s: string): seq<string> {
    if TrimSpace(s) == "none" then [] else Select(Entries(s))
  }

  lemma {:induction false} TrimAllAt(parts: seq<string>, i: nat)
    requires i < |parts|
    ensures |TrimAll(parts)| == |parts| && TrimAll(parts)[i] == TrimSpace(parts[i])
  {
    if i < |parts| - 1 {
      TrimAllAt(Front(parts), i);
    } else if i > 0 {
      TrimAllAt(Front(parts), 0);
    }
  }

  lemma {:induction false} TrimAllPrefix(parts: seq<string>, i: nat)
    requires i < |parts|
    ensures TrimAll(parts[..i + 1]) == TrimAll(parts[..i]) + [TrimSpace(parts[i])]
  {
    assert parts[..i + 1] == parts[..i] + [parts[i]];
    Snoc(parts[..i], parts[i]);
  }

  lemma SelectSnoc(entries: seq<string>, k: string)
    ensures Select(entries + [k])
         == if Wanted(k) && k !in Select(entries) then Select(entries) + [k] else Select(entries)
  {
    Snoc(entries, k);
  }

  method ParsePushExporters(s: string) returns (out: seq<string>)
    ensures out == PushExporters(s)
  {
    out := [];
    if TrimSpace(s) == "none" {
      return;
    }
    var seen: set<string> := {};
    var parts := Split(s, ',');
    for i := 0 to |parts|
      invariant out == Select(TrimAll(parts[..i]))
      invariant forall k :: k in seen <==> k in out
    {
      TrimAllPrefix(parts, i);
      var k := TrimSpace(parts[i]);
      SelectSnoc(TrimAll(parts[..i]), k);
      if k == "" || k == "prometheus" {
        continue;
      }
      if k in seen {
        continue;
      }
      seen := seen + {k};
      out := out + [k];
    }
    assert parts[..|parts|] == parts;
  }

  // ------------------------------------------------------------------ what the list is

  /** The position of the first occurrence. */
  function First(entries: seq<string>, k: string): (i: nat)
    requires k in entries
    ensures i < |entries| && entries[i] == k && k !in entries[..i]
  {
    if k in Front(entries) then
      var i := First(Front(entries), k);
      assert Front(entries)[..i] == entries[..i];
      i
    else |entries| - 1
  }

  ghost predicate Listed(entries: seq<string>, out: seq<string>) {
    && (forall k :: k in out <==> k in entries && k != "" && k != "prometheus")
    && (forall i, j :: 0 <= i < j < |out| ==>
          out[i] in entries && out[j] in entries && First(entries, out[i]) < First(entries, out[j]))
  }

  lemma FirstOfPrefix(front: seq<string>, last: string, k: string)
    requires k in front
    ensures k in front + [last] && First(front + [last], k) == First(front, k)
  {
    Snoc(front, last);
  }

  lemma FirstOfNew(front: seq<string>, last: string)
    requires last !in front
    ensures First(front + [last], last) == |front|
  {
    Snoc(front, last);
  }

  /** The selection consists of the wanted entries, without duplicates and in the order of their
      first occurrences. */
  lemma {:induction false} SelectIsListed(entries: seq<string>)
    ensures Listed(entries, Select(entries))
  {
    if entries != [] {
      var front, k := Front(entries), Last(entries);
      var out := Select(front);
      SelectIsListed(front);
      FrontLast(entries);
      forall x | x in front ensures x in entries && First(entries, x) == First(front, x) {
        FirstOfPrefix(front, k, x);
      }
      if Wanted(k) && k !in out {
        FirstOfNew(front, k);
      }
    }
  }

  /** There is only one such list. */
  lemma {:induction false} ListIsUnique(entries: seq<string>, a: seq<string>, b: seq<string>)
    requires (forall k :: k in a <==> k in b) && (forall k :: k in a ==> k in entries)
    requires Increasing(entries, a) && Increasing(entries, b)
    ensures a == b
  {
    if a == [] {
      assert forall i :: 0 <= i < |b| ==> b[i] in a;
    } else {
      assert a[0] in b;
      var la, lb := Last(a), Last(b);
      assert la in b && lb in a;
      LastIsLatest(entries, a, lb);
      LastIsLatest(entries, b, la);
      assert la == lb;
      FrontElements(entries, a);
      FrontElements(entries, b);
      ListIsUnique(entries, Front(a), Front(b));
      FrontLast(a);
      FrontLast(b);
    }
  }

  ghost predicate Increasing(entries: seq<string>, out: seq<string>) {
    forall i, j :: 0 <= i < j < |out| ==>
      out[i] in entries && out[j] in entries && First(entries, out[i]) < First(entries, out[j])
  }

  lemma LastIsLatest(entries: seq<string>, out: seq<string>, k: string)
    requires Increasing(entries, out) && k in out && forall x :: x in out ==> x in entries
    ensures First(entries, k) <= First(entries, Last(out))
  {
    var i :| 0 <= i < |out| && out[i] == k;
  }

  lemma FrontElements(entries: seq<string>, out: seq<string>)
    requires out != [] && Increasing(entries, out) && forall x :: x in out ==> x in entries
    ensures Increasing(entries, Front(out))
    ensures forall k :: k in Front(out) <==> k in out && k != Last(out)
  {
    FrontLast(out);
    forall k | k in Front(out) ensures k != Last(out) {
      var i :| 0 <= i < |Front(out)| && Front(out)[i] == k;
      assert First(entries, out[i]) < First(entries, Last(out));
    }
  }

  lemma {:induction false} EntriesMeaning(s: string)
    ensures |Entries(s)| == |Split(s, ',')|
    ensures forall i :: 0 <= i < |Entries(s)| ==> Entries(s)[i] == TrimSpace(Split(s, ',')[i])
  {
    forall i | 0 <= i < |Split(s, ',')|
      ensures |Entries(s)| == |Split(s, ',')| && Entries(s)[i] == TrimSpace(Split(s, ',')[i])
    {
      TrimAllAt(Split(s, ','), i);
    }
    assert 0 < |Split(s, ',')|;
  }

  lemma ExportersMeaning(s: string, out: seq<string>)
    ensures out == PushExporters(s) <==> if TrimSpace(s) == "none" then out == [] else Listed(Entries(s), out)
  {
    SelectIsListed(Entries(s));
    if TrimSpace(s) != "none" && Listed(Entries(s), out) {
      ListIsUnique(Entries(s), out, PushExporters(s));
    }
  }

  // ------------------------------------------------------------------ parsing the output again

  lemma {:induction false} EntriesAreTrimmed(parts: seq<string>)
    requires forall i :: 0 <= i < |parts| ==> ',' !in parts[i]
    ensures forall k :: k in TrimAll(parts) ==> TrimSpace(k) == k && ',' !in k
  {
    if parts != [] {
      EntriesAreTrimmed(Front(parts));
      var front, back := TrimSpaceMeaning(Last(parts));
      TrimSpaceKeeps(TrimSpace(Last(parts)));
    }
  }

  lemma {:induction false} SelectOfDistinct(out: seq<string>)
    requires forall i :: 0 <= i < |out| ==> Wanted(out[i]) && TrimSpace(out[i]) == out[i]
    requires forall i, j :: 0 <= i < j < |out| ==> out[i] != out[j]
    ensures TrimAll(out) == out && Select(out) == out
  {
    if out != [] {
      SelectOfDistinct(Front(out));
      FrontLast(out);
    }
  }

  lemma {:induction false} JoinIsNone(out: seq<string>)
    requires forall i :: 0 <= i < |out| ==> TrimSpace(out[i]) == out[i]
    ensures TrimSpace(Join(out, ",")) == "none" <==> out == ["none"]
  {
    if |out| == 0 {
      assert TrimSpace("") == "";
    } else if |out| > 1 {
      var text := Join(out, ",");
      var front, back := TrimSpaceMeaning(text);
      assert text[|out[0]|] == ',';
      assert ',' !in front && ',' !in back && ',' in text;
      assert ',' in TrimSpace(text);
    }
  }

  /** The input is not just "none", but "none" is the only wanted entry in it. */
  ghost predicate OnlyNone(s: string) {
    && TrimSpace(s) != "none"
    && "none" in Entries(s)
    && forall k :: k in Entries(s) && Wanted(k) ==> k == "none"
  }

  lemma ListsOnlyNone(s: string)
    ensures PushExporters(s) == ["none"] <==> OnlyNone(s)
  {
    if TrimSpace(s) != "none" {
      var entries, out := Entries(s), PushExporters(s);
      SelectIsListed(entries);
      if OnlyNone(s) {
        ListIsUnique(entries, ["none"], out);
      }
      if out == ["none"] {
        assert "none" in out;
      }
    }
  }

  lemma ReparsesUnlessNone(s: string)
    ensures PushExporters(Join(PushExporters(s), ",")) == PushExporters(s) <==> PushExporters(s) != ["none"]
  {
    var out := PushExporters(s);
    if TrimSpace(s) == "none" {
      Reparse(out);
    } else {
      var entries := Entries(s);
      SelectIsListed(entries);
      EntriesAreTrimmed(Split(s, ','));
      forall i | 0 <= i < |out| ensures Wanted(out[i]) && TrimSpace(out[i]) == out[i] && ',' !in out[i] {
        assert out[i] in out;
      }
      Reparse(out);
    }
  }

  /** Parsing the comma-joined output again gives the same list exactly when the input is just "none",
      or does not have the entry "none", or has another wanted entry beside it. */
  lemma ReparseExactlyWhen(s: string)
    ensures PushExporters(Join(PushExporters(s), ",")) == PushExporters(s) <==>
      || TrimSpace(s) == "none"
      || "none" !in Entries(s)
      || exists k :: k in Entries(s) && Wanted(k) && k != "none"
  {
    ReparsesUnlessNone(s);
    ListsOnlyNone(s);
  }

  lemma {:induction false} NothingListed()
    ensures PushExporters("") == []
  {
    SplitOne("", ',');
    assert Front([""]) == [];
    assert TrimAll([""]) == [] + [TrimSpace("")];
    Snoc<string>([], "");
  }

  lemma {:induction false} Reparse(out: seq<string>)
    requires forall i :: 0 <= i < |out| ==> Wanted(out[i]) && TrimSpace(out[i]) == out[i] && ',' !in out[i]
    requires forall i, j :: 0 <= i < j < |out| ==> out[i] != out[j]
    ensures PushExporters(Join(out, ",")) == if out == ["none"] then [] else out
  {
    JoinIsNone(out);
    if out == [] {
      NothingListed();
    } else {
      SplitJoin(out, ',');
      SelectOfDistinct(out);
    }
  }

  lemma {:induction false} SelectTwo(k: string)
    requires Wanted(k)
    ensures Select([k] + [""]) == [k]
  {
    Snoc([k], "");
    assert Front([k]) == [] && Select([]) == [];
    assert Select([k]) == [] + [k];
  }

  lemma {:induction false} TrimTwo(k: string)
    requires Trimmed(k)
    ensures TrimAll([k] + [""]) == [k] + [""]
  {
    Snoc([k], "");
    TrimSpaceKeeps(k);
    TrimSpaceKeeps("");
    assert Front([k]) == [] && TrimAll([]) == [];
    assert TrimAll([k]) == [] + [k];
  }

  /** One name and a trailing comma select that name, even if it is "none". */
  lemma {:induction false} TrailingComma(k: string)
    requires Wanted(k) && Trimmed(k) && ',' !in k
    ensures PushExporters(k + [','] + "") == [k]
  {
    var s := k + [','] + "";
    SplitAround(k, ',', "");
    SplitOne(k, ',');
    SplitOne("", ',');
    TrimTwo(k);
    SelectTwo(k);
    TrimSpaceKeeps(s);
    assert s[|k|] == ',';
  }

  /** So the exception is real: "none," is taken for the name of an exporter. */
  lemma NoneSurvives()
    ensures PushExporters("none,") == ["none"]
  {
    PlainWord("none");
    assert "none" + [','] + "" == "none,";
    TrailingComma("none");
  }
}

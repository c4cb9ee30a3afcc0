/** The three line-based readers `/respond` applies to the cached order
    file (index.js, after `fileContent.split("\n")`). A "header" is any
    line that starts with "Order ": the per-order lines "Order 1:", ...
    but equally the file's own first line "Order Summary for ..." and
    its "Order Details:" line, which the readers treat the same way. */
module OrderFile {
  import opened Text
  import opened Outcomes

  /** `orderLines[i].startsWith("Order ")` */
  predicate IsHeader(line: string)
  {
    StartsWith(line, "Order ")
  }

  /** `orderLines[k]` inside a template string: past the end of the array
      it reads `undefined`, which prints as "undefined". */
  function LineAt(lines: seq<string>, k: nat): string
  {
    if k < |lines| then lines[k] else "undefined"
  }

  predicate HasHeader(lines: seq<string>)
  {
    exists j :: 0 <= j < |lines| && IsHeader(lines[j])
  }

  // ---------------------------------------------------------------------
  // "recent": the last header and the block that follows it
  // ---------------------------------------------------------------------

  const RecentIntro := "Your most recent order is:\n"
  const NoRecent := "I couldn't find any recent orders."

  /** The index of the last header, found from the back. */
  function LastHeader(lines: seq<string>): (r: Option<nat>)
    ensures r.Some? ==> r.value < |lines|
  {
    if |lines| == 0 then None
    else if IsHeader(lines[|lines| - 1]) then Some(|lines| - 1)
    else LastHeader(lines[..|lines| - 1])
  }

  /** `LastHeader` finds the header with no header after it, and finds
      nothing exactly when there is no header. */
  lemma {:induction false} LastHeaderIff(lines: seq<string>, k: nat)
    ensures LastHeader(lines) == Some(k) <==>
      k < |lines| && IsHeader(lines[k]) && forall j :: k < j < |lines| ==> !IsHeader(lines[j])
    ensures LastHeader(lines) == None <==> !HasHeader(lines)
    decreases |lines|
  {
    if |lines| > 0 && !IsHeader(lines[|lines| - 1]) {
      var init := lines[..|lines| - 1];
      LastHeaderIff(init, k);
      assert forall j :: 0 <= j < |init| ==> init[j] == lines[j];
      if HasHeader(lines) {
        var j :| 0 <= j < |lines| && IsHeader(lines[j]);
        assert IsHeader(init[j]);
      }
    }
  }

  /** `orderLines.slice(i, i + 8).join("\n")`: the header and at most the
      seven lines after it. */
  function Block(lines: seq<string>, i: nat): string
    requires i < |lines|
  {
    Join(lines[i..if i + 8 <= |lines| then i + 8 else |lines|])
  }

  /** The reply of the "recent" branch. */
  function RecentReply(lines: seq<string>): string
  {
    match LastHeader(lines)
    case Some(k) => RecentIntro + Block(lines, k)
    case None => NoRecent
  }

  /** The "recent" branch names the last header and its block, or says
      there is none. */
  lemma RecentReplyMeaning(lines: seq<string>)
    ensures HasHeader(lines) ==>
      (exists k :: 0 <= k < |lines| && IsHeader(lines[k]) &&
         (forall j :: k < j < |lines| ==> !IsHeader(lines[j])) &&
         RecentReply(lines) == RecentIntro + Block(lines, k))
    ensures !HasHeader(lines) ==> RecentReply(lines) == NoRecent
  {
    match LastHeader(lines)
    case Some(k) =>
      LastHeaderIff(lines, k);
    case None =>
      LastHeaderIff(lines, 0);
  }

  /** The backward loop with `break` (index.js:308-319). */
  method RecentAnswer(lines: seq<string>) returns (answer: string)
    ensures answer == RecentReply(lines)
  {
    var recentOrder := "";
    var foundOrder := false;
    var i: int := |lines| - 1;
    while i >= 0
      invariant -1 <= i < |lines|
      invariant forall j :: i < j < |lines| ==> !IsHeader(lines[j])
      decreases i
    {
      if IsHeader(lines[i]) {
        recentOrder := Block(lines, i);
        foundOrder := true;
        LastHeaderIff(lines, i);
        break;
      }
      i := i - 1;
    }
    if foundOrder {
      answer := RecentIntro + recentOrder;
    } else {
      LastHeaderIff(lines, 0);
      answer := NoRecent;
    }
  }

  // ---------------------------------------------------------------------
  // "status": every header paired with the line six below it
  // ---------------------------------------------------------------------

  const StatusIntro := "Here are your order statuses:"
  const NoStatuses := "No order statuses available."

  /** `${orderLines[i]} - ${orderLines[i + 6]}` */
  function StatusEntry(lines: seq<string>, i: nat): string
    requires i < |lines|
  {
    lines[i] + " - " + LineAt(lines, i + 6)
  }

  /** The entries for the headers among the first n lines. */
  function StatusEntries(lines: seq<string>, n: nat): seq<string>
    requires n <= |lines|
  {
    if n == 0 then []
    else StatusEntries(lines, n - 1) + (if IsHeader(lines[n - 1]) then [StatusEntry(lines, n - 1)] else [])
  }

  /** The indices of the headers among the first n lines, in order. */
  function Headers(lines: seq<string>, n: nat): (hs: seq<nat>)
    requires n <= |lines|
    ensures forall k :: 0 <= k < |hs| ==> hs[k] < n
  {
    if n == 0 then []
    else Headers(lines, n - 1) + (if IsHeader(lines[n - 1]) then [n - 1] else [])
  }

  /** `Headers` lists every header among the first n lines exactly once,
      in increasing order, and nothing else. */
  lemma {:induction false} HeadersExact(lines: seq<string>, n: nat)
    requires n <= |lines|
    ensures var hs := Headers(lines, n);
      (forall k :: 0 <= k < |hs| ==> hs[k] < n && IsHeader(lines[hs[k]])) &&
      (forall k, l :: 0 <= k < l < |hs| ==> hs[k] < hs[l]) &&
      (forall j :: 0 <= j < n && IsHeader(lines[j]) ==> j in hs)
    decreases n
  {
    if n > 0 {
      HeadersExact(lines, n - 1);
    }
  }

  /** One status entry per header, in order: entry k pairs header k with
      the line six below it. */
  lemma {:induction false} StatusEntriesPerHeader(lines: seq<string>, n: nat)
    requires n <= |lines|
    ensures var es, hs := StatusEntries(lines, n), Headers(lines, n);
      |es| == |hs| && forall k :: 0 <= k < |es| ==> es[k] == StatusEntry(lines, hs[k])
    decreases n
  {
    if n > 0 {
      StatusEntriesPerHeader(lines, n - 1);
      HeadersExact(lines, n - 1);
    }
  }

  /** The reply of the "status" branch. */
  function StatusReply(lines: seq<string>): string
  {
    if HasHeader(lines) then Lines([StatusIntro] + StatusEntries(lines, |lines|)) else NoStatuses
  }

  /** Line i adds its status entry and a newline when it is a header,
      and nothing otherwise. */
  lemma StatusStep(lines: seq<string>, i: nat)
    requires i < |lines|
    ensures IsHeader(lines[i]) ==>
      Lines([StatusIntro] + StatusEntries(lines, i + 1))
        == Lines([StatusIntro] + StatusEntries(lines, i)) + StatusEntry(lines, i) + "\n"
    ensures !IsHeader(lines[i]) ==> StatusEntries(lines, i + 1) == StatusEntries(lines, i)
  {
    if IsHeader(lines[i]) {
      var before := [StatusIntro] + StatusEntries(lines, i);
      assert [StatusIntro] + StatusEntries(lines, i + 1) == before + [StatusEntry(lines, i)];
      LinesSnoc(before, StatusEntry(lines, i));
    }
  }

  /** The forward loop of index.js:322-334. */
  method StatusAnswer(lines: seq<string>) returns (answer: string)
    ensures answer == StatusReply(lines)
  {
    var statusResponse := StatusIntro + "\n";
    var hasOrders := false;
    assert statusResponse == Lines([StatusIntro]);
    for i := 0 to |lines|
      invariant statusResponse == Lines([StatusIntro] + StatusEntries(lines, i))
      invariant hasOrders <==> exists j :: 0 <= j < i && IsHeader(lines[j])
    {
      StatusStep(lines, i);
      if IsHeader(lines[i]) {
        var statusLine := LineAt(lines, i + 6);
        statusResponse := statusResponse + lines[i] + " - " + statusLine + "\n";
        hasOrders := true;
      }
    }
    answer := if hasOrders then statusResponse else NoStatuses;
  }

  // ---------------------------------------------------------------------
  // general list: a header and the two lines below it, then skip ahead
  // ---------------------------------------------------------------------

  const ListIntro := "Here are your orders:"
  const NoOrders := "No orders found in the records."

  /** `${orderLines[i]}: ${orderLines[i + 1]} - ${orderLines[i + 2]}` */
  function ListEntry(lines: seq<string>, i: nat): string
  {
    LineAt(lines, i) + ": " + LineAt(lines, i + 1) + " - " + LineAt(lines, i + 2)
  }

  /** The headers the scan from i visits: after visiting a header at j it
      resumes at j + 8 (the `i += 7` and the loop's own `i++`). */
  function Visited(lines: seq<string>, i: nat): seq<nat>
    decreases |lines| - i
  {
    if i >= |lines| then []
    else if IsHeader(lines[i]) then [i] + Visited(lines, i + 8)
    else Visited(lines, i + 1)
  }

  /** The visited lines are headers from i on. */
  lemma {:induction false} VisitedHeaders(lines: seq<string>, i: nat)
    ensures forall k :: 0 <= k < |Visited(lines, i)| ==> i <= Visited(lines, i)[k] < |lines|
    ensures forall k :: 0 <= k < |Visited(lines, i)| ==> IsHeader(lines[Visited(lines, i)[k]])
    decreases |lines| - i
  {
    if i < |lines| {
      if IsHeader(lines[i]) {
        VisitedHeaders(lines, i + 8);
      } else {
        VisitedHeaders(lines, i + 1);
      }
    }
  }

  /** The visited lines are eight or more lines apart. */
  lemma {:induction false} VisitedApart(lines: seq<string>, i: nat)
    ensures forall k, l :: 0 <= k < l < |Visited(lines, i)| ==> Visited(lines, i)[k] + 8 <= Visited(lines, i)[l]
    decreases |lines| - i
  {
    if i < |lines| {
      if IsHeader(lines[i]) {
        VisitedApart(lines, i + 8);
        VisitedHeaders(lines, i + 8);
        var vs, rest := Visited(lines, i), Visited(lines, i + 8);
        assert vs == [i] + rest;
        forall k, l | 0 <= k < l < |vs| ensures vs[k] + 8 <= vs[l] {
          assert vs[l] == rest[l - 1];
          if k > 0 { assert vs[k] == rest[k - 1]; }
        }
      } else {
        VisitedApart(lines, i + 1);
      }
    }
  }

  /** Every header from i on that is not visited lies within the seven
      lines skipped after a visited one. */
  lemma {:induction false} VisitedSkips(lines: seq<string>, i: nat, j: nat)
    requires i <= j < |lines| && IsHeader(lines[j]) && j !in Visited(lines, i)
    ensures exists k :: 0 <= k < |Visited(lines, i)| && Visited(lines, i)[k] < j <= Visited(lines, i)[k] + 7
    decreases |lines| - i
  {
    var vs := Visited(lines, i);
    if IsHeader(lines[i]) {
      var rest := Visited(lines, i + 8);
      assert vs == [i] + rest;
      if j < i + 8 {
        assert vs[0] < j <= vs[0] + 7;
      } else {
        assert j !in rest;
        VisitedSkips(lines, i + 8, j);
        var k :| 0 <= k < |rest| && rest[k] < j <= rest[k] + 7;
        assert vs[k + 1] == rest[k];
      }
    } else {
      assert j != i;
      VisitedSkips(lines, i + 1, j);
    }
  }

  /** The first header is always visited, so the scan finds something
      exactly when there is a header. */
  lemma {:induction false} VisitedNonEmpty(lines: seq<string>, i: nat)
    ensures |Visited(lines, i)| > 0 <==> exists j :: i <= j < |lines| && IsHeader(lines[j])
    decreases |lines| - i
  {
    if i < |lines| && !IsHeader(lines[i]) {
      VisitedNonEmpty(lines, i + 1);
      if exists j :: i <= j < |lines| && IsHeader(lines[j]) {
        var j :| i <= j < |lines| && IsHeader(lines[j]);
        assert j != i;
      }
    }
  }

  /** The entries the scan from i produces. */
  function ListFrom(lines: seq<string>, i: nat): seq<string>
    decreases |lines| - i
  {
    if i >= |lines| then []
    else if IsHeader(lines[i]) then [ListEntry(lines, i)] + ListFrom(lines, i + 8)
    else ListFrom(lines, i + 1)
  }

  /** One list entry per visited header, in order. */
  lemma {:induction false} ListFromPerVisit(lines: seq<string>, i: nat)
    ensures |ListFrom(lines, i)| == |Visited(lines, i)|
    ensures forall k :: 0 <= k < |Visited(lines, i)| ==>
      ListFrom(lines, i)[k] == ListEntry(lines, Visited(lines, i)[k])
    decreases |lines| - i
  {
    if i < |lines| {
      if IsHeader(lines[i]) {
        ListFromPerVisit(lines, i + 8);
        var es, vs := ListFrom(lines, i), Visited(lines, i);
        assert es == [ListEntry(lines, i)] + ListFrom(lines, i + 8);
        assert vs == [i] + Visited(lines, i + 8);
        forall k | 0 <= k < |vs| ensures es[k] == ListEntry(lines, vs[k]) {
          if k > 0 {
            assert es[k] == ListFrom(lines, i + 8)[k - 1];
            assert vs[k] == Visited(lines, i + 8)[k - 1];
          }
        }
      } else {
        ListFromPerVisit(lines, i + 1);
      }
    }
  }

  /** The reply of the general branch. */
  function ListReply(lines: seq<string>): string
  {
    var es := ListFrom(lines, 0);
    if |es| > 0 then Lines([ListIntro] + es) else NoOrders
  }

  /** The general branch lists the visited headers exactly when the file
      has a header at all. */
  lemma ListReplyMeaning(lines: seq<string>)
    ensures HasHeader(lines) ==>
      |ListFrom(lines, 0)| == |Visited(lines, 0)| > 0 && ListReply(lines) == Lines([ListIntro] + ListFrom(lines, 0))
    ensures !HasHeader(lines) ==> ListReply(lines) == NoOrders
  {
    VisitedNonEmpty(lines, 0);
    ListFromPerVisit(lines, 0);
  }

  /** A header in the first line hides the seven lines after it from the
      general list, and it is itself the first entry. In the file that
      `/incoming-call` writes, that first line is "Order Summary for ...",
      so "Order Details:" and "Order 1:", three and four lines further
      down, are skipped. */
  lemma FirstHeaderHidesSeven(lines: seq<string>, j: nat)
    requires |lines| > 0 && IsHeader(lines[0]) && 1 <= j <= 7
    ensures j !in Visited(lines, 0)
    ensures ListFrom(lines, 0)[0] == ListEntry(lines, 0)
  {
    VisitedHeaders(lines, 8);
    assert Visited(lines, 0) == [0] + Visited(lines, 8);
  }

  /** A visited header adds its entry to what is listed, and the scan
      resumes eight lines further on. */
  lemma ListStep(lines: seq<string>, listed: seq<string>, i: nat)
    requires i < |lines| && IsHeader(lines[i])
    ensures (listed + [ListEntry(lines, i)]) + ListFrom(lines, i + 8) == listed + ListFrom(lines, i)
  {
    assert ListFrom(lines, i) == [ListEntry(lines, i)] + ListFrom(lines, i + 8);
  }

  /** The forward loop with the skip (index.js:337-351). */
  method ListAnswer(lines: seq<string>) returns (answer: string)
    ensures answer == ListReply(lines)
  {
    var orderList := ListIntro + "\n";
    var hasOrders := false;
    ghost var listed: seq<string> := [];
    assert orderList == Lines([ListIntro]);
    var i := 0;
    while i < |lines|
      invariant 0 <= i <= |lines| + 7
      invariant listed + ListFrom(lines, i) == ListFrom(lines, 0)
      invariant orderList == Lines([ListIntro] + listed)
      invariant hasOrders <==> |listed| > 0
      decreases |lines| + 8 - i
    {
      if IsHeader(lines[i]) {
        var entry := ListEntry(lines, i);
        ListStep(lines, listed, i);
        LinesAfterIntro(ListIntro, listed, entry);
        orderList := orderList + entry + "\n";
        hasOrders := true;
        listed := listed + [entry];
        i := i + 7;
      } else {
        assert ListFrom(lines, i) == ListFrom(lines, i + 1);
      }
      i := i + 1;
    }
    assert ListFrom(lines, i) == [];
    assert listed + [] == listed;
    answer := if hasOrders then orderList else NoOrders;
  }
}

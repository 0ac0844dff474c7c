/** The OCR-credits app's ORDER_FULLY_PAID webhook handler
    (apps/ocr-credits/src/pages/api/webhooks/order-fully-paid.ts): for every
    order line whose SKU is an OCR credits product it asks the credits service
    to add `pages x quantity` pages to the account named by the customer's
    e-mail, stopping at the first refusal.

    The credits service is an oracle: `addCredits(i)` is whether the i-th call
    of the request succeeds. Logging has no effect and is left out. */
module OrderFullyPaid {
  import opened Wrappers
  import SkuMapping

  datatype OrderLine = OrderLine(id: string, productSku: Option<string>, quantity: int)

  datatype Order = Order(id: string, number: string, userEmail: Option<string>, lines: seq<OrderLine>)

  datatype Payload = Payload(order: Option<Order>)

  /** `CreditTopUpRequest` as the handler fills it in. */
  datatype CreditTopUpRequest = CreditTopUpRequest(accountId: string, pages: int, orderId: string, source: string)

  datatype Body =
    | ErrorBody(error: string)
    | SuccessBody(success: bool, creditsAdded: int, accountId: string)

  datatype Response = Response(status: nat, body: Body)

  const Source: string := "saleor-ocr-credits"

  /** A line is credited when it has a SKU and the table knows it. */
  predicate Credited(line: OrderLine)
  {
    Truthy(line.productSku) && SkuMapping.GetPagesForSku(line.productSku) != 0
  }

  /** The request the handler sends for a credited line. */
  function LineRequest(line: OrderLine, email: string, orderId: string): (r: CreditTopUpRequest)
    requires Credited(line)
    ensures r.accountId == email && r.orderId == orderId && r.source == Source
    ensures r.pages == SkuMapping.SkuToPages[line.productSku.value] * line.quantity
  {
    CreditTopUpRequest(email, SkuMapping.GetPagesForSku(line.productSku) * line.quantity, orderId, Source)
  }

  /** The calls the handler makes when every call succeeds, in line order. */
  function CreditRequests(lines: seq<OrderLine>, email: string, orderId: string): (reqs: seq<CreditTopUpRequest>)
    ensures |reqs| <= |lines|
    ensures forall r :: r in reqs ==> r.accountId == email && r.orderId == orderId && r.source == Source
  {
    if lines == [] then []
    else
      var last := lines[|lines| - 1];
      CreditRequests(lines[..|lines| - 1], email, orderId)
        + (if Credited(last) then [LineRequest(last, email, orderId)] else [])
  }

  /** Total pages asked for by a list of requests. */
  function TotalPages(reqs: seq<CreditTopUpRequest>): int
  {
    if reqs == [] then 0 else TotalPages(reqs[..|reqs| - 1]) + reqs[|reqs| - 1].pages
  }

  /** Total pages over every line, each line valued by the SKU table. */
  function PagesOfLines(lines: seq<OrderLine>): int
  {
    if lines == [] then 0
    else
      var last := lines[|lines| - 1];
      PagesOfLines(lines[..|lines| - 1]) + SkuMapping.GetPagesForSku(last.productSku) * last.quantity
  }

  /** The position of the first failing call among the first `n`, or `n`. */
  function FirstFailure(addCredits: nat -> bool, n: nat): (k: nat)
    ensures k <= n
    ensures forall i :: 0 <= i < k ==> addCredits(i)
    ensures k < n ==> !addCredits(k)
  {
    if n == 0 then 0
    else
      var k := FirstFailure(addCredits, n - 1);
      if k < n - 1 then k else if addCredits(n - 1) then n else n - 1
  }

  lemma {:induction false} TotalPagesAppend(reqs: seq<CreditTopUpRequest>, more: seq<CreditTopUpRequest>)
    ensures TotalPages(reqs + more) == TotalPages(reqs) + TotalPages(more)
    decreases |more|
  {
    if more == [] {
      assert reqs + more == reqs;
    } else {
      var init := more[..|more| - 1];
      assert (reqs + more)[..|reqs + more| - 1] == reqs + init;
      assert (reqs + more)[|reqs + more| - 1] == more[|more| - 1];
      TotalPagesAppend(reqs, init);
      assert TotalPages(more) == TotalPages(init) + more[|more| - 1].pages;
    }
  }

  /** Skipping lines does not change the total: the pages credited on
      success are the sum of `getPagesForSku(sku) x quantity` over all lines,
      since a skipped line is worth 0 pages. */
  lemma {:induction false} CreditedTotalIsSumOverAllLines(lines: seq<OrderLine>, email: string, orderId: string)
    ensures TotalPages(CreditRequests(lines, email, orderId)) == PagesOfLines(lines)
  {
    if lines != [] {
      var init := lines[..|lines| - 1];
      var last := lines[|lines| - 1];
      CreditedTotalIsSumOverAllLines(init, email, orderId);
      var tail := if Credited(last) then [LineRequest(last, email, orderId)] else [];
      TotalPagesAppend(CreditRequests(init, email, orderId), tail);
      if Credited(last) {
        assert TotalPages(tail) == TotalPages([]) + tail[0].pages;
      }
    }
  }

  /** The requests for a prefix of the lines are a prefix of the requests. */
  lemma {:induction false} RequestsOfPrefix(lines: seq<OrderLine>, i: nat, email: string, orderId: string)
    requires i <= |lines|
    ensures CreditRequests(lines[..i], email, orderId) <= CreditRequests(lines, email, orderId)
    decreases |lines|
  {
    if i < |lines| {
      var init := lines[..|lines| - 1];
      assert init[..i] == lines[..i];
      RequestsOfPrefix(init, i, email, orderId);
    } else {
      assert lines[..i] == lines;
    }
  }

  /** One more line adds its request, if any, at the end. */
  lemma RequestsStep(lines: seq<OrderLine>, i: nat, email: string, orderId: string)
    requires i < |lines|
    ensures CreditRequests(lines[..i + 1], email, orderId)
      == CreditRequests(lines[..i], email, orderId)
         + (if Credited(lines[i]) then [LineRequest(lines[i], email, orderId)] else [])
  {
    assert lines[..i + 1][..i] == lines[..i];
    assert lines[..i + 1][i] == lines[i];
  }

  /** A refused call ends the run: the calls made so far are a prefix of all
      the requests, and the last of them is the first refusal. */
  lemma RefusalEndsRun(lines: seq<OrderLine>, i: nat, email: string, orderId: string,
                       addCredits: nat -> bool, calls: seq<CreditTopUpRequest>)
    requires i < |lines|
    requires calls == CreditRequests(lines[..i + 1], email, orderId) && |calls| > 0
    requires forall j :: 0 <= j < |calls| - 1 ==> addCredits(j)
    requires !addCredits(|calls| - 1)
    ensures var reqs := CreditRequests(lines, email, orderId);
      |calls| <= |reqs| && calls == reqs[..|calls|] && FirstFailure(addCredits, |reqs|) == |calls| - 1
  {
    var reqs := CreditRequests(lines, email, orderId);
    RequestsOfPrefix(lines, i + 1, email, orderId);
    assert calls == reqs[..|calls|];
  }

  /** With no refused call among the first `n`, there is no first failure. */
  lemma NoRefusal(addCredits: nat -> bool, n: nat)
    requires forall j :: 0 <= j < n ==> addCredits(j)
    ensures FirstFailure(addCredits, n) == n
  {
  }

  /** The credit loop of `handler`: one `addCredits` call per credited line,
      in line order, stopping at the first refusal. Returns whether a call
      was refused, the running total, and the calls made. */
  method ProvisionCredits(lines: seq<OrderLine>, email: string, orderId: string, addCredits: nat -> bool)
    returns (refused: bool, totalCreditsAdded: int, calls: seq<CreditTopUpRequest>)
    ensures var reqs := CreditRequests(lines, email, orderId);
      && (refused <==> FirstFailure(addCredits, |reqs|) < |reqs|)
      && (refused ==> calls == reqs[..FirstFailure(addCredits, |reqs|) + 1])
      && (!refused ==> calls == reqs && totalCreditsAdded == PagesOfLines(lines))
  {
    ghost var reqs := CreditRequests(lines, email, orderId);
    totalCreditsAdded := 0;
    calls := [];
    var i := 0;
    while i < |lines|
      invariant i <= |lines|
      invariant calls == CreditRequests(lines[..i], email, orderId)
      invariant forall j :: 0 <= j < |calls| ==> addCredits(j)
      invariant totalCreditsAdded == TotalPages(calls)
    {
      var line := lines[i];
      RequestsStep(lines, i, email, orderId);
      var sku := line.productSku;
      if !Truthy(sku) {
        i := i + 1;
        continue;
      }
      var pageCredits := SkuMapping.GetPagesForSku(sku);
      if pageCredits == 0 {
        i := i + 1;
        continue;
      }
      var creditsToAdd := pageCredits * line.quantity;
      var request := CreditTopUpRequest(email, creditsToAdd, orderId, Source);
      var ok := addCredits(|calls|);
      TotalPagesAppend(calls, [request]);
      ghost var made := calls;
      calls := calls + [request];
      if !ok {
        RefusalEndsRun(lines, i, email, orderId, addCredits, calls);
        return true, totalCreditsAdded, calls;
      }
      forall j | 0 <= j < |calls|
        ensures addCredits(j)
      {
        if j < |made| {
          assert addCredits(j);
        }
      }
      totalCreditsAdded := totalCreditsAdded + creditsToAdd;
      i := i + 1;
    }
    assert lines[..i] == lines;
    NoRefusal(addCredits, |reqs|);
    CreditedTotalIsSumOverAllLines(lines, email, orderId);
    refused := false;
  }

  /** `handler`: guards, then the credit loop. Returns the response and the
      `addCredits` calls made, in order. */
  method HandleOrderFullyPaid(payload: Payload, addCredits: nat -> bool)
    returns (response: Response, calls: seq<CreditTopUpRequest>)
    ensures payload.order.None? ==>
      response == Response(400, ErrorBody("No order in payload")) && calls == []
    ensures payload.order.Some? && !Truthy(payload.order.value.userEmail) ==>
      response == Response(400, ErrorBody("No customer email in order")) && calls == []
    ensures payload.order.Some? && Truthy(payload.order.value.userEmail) ==>
      var order := payload.order.value;
      var email := order.userEmail.value;
      var reqs := CreditRequests(order.lines, email, order.id);
      var k := FirstFailure(addCredits, |reqs|);
      if k < |reqs| then
        calls == reqs[..k + 1] && response == Response(500, ErrorBody("Failed to provision credits"))
      else
        calls == reqs && response == Response(200, SuccessBody(true, PagesOfLines(order.lines), email))
  {
    if payload.order.None? {
      return Response(400, ErrorBody("No order in payload")), [];
    }
    var order := payload.order.value;
    var customerEmail := order.userEmail;
    if !Truthy(customerEmail) {
      return Response(400, ErrorBody("No customer email in order")), [];
    }
    var email := customerEmail.value;
    var refused, totalCreditsAdded;
    refused, totalCreditsAdded, calls := ProvisionCredits(order.lines, email, order.id, addCredits);
    if refused {
      return Response(500, ErrorBody("Failed to provision credits")), calls;
    }
    response := Response(200, SuccessBody(true, totalCreditsAdded, email));
  }
}

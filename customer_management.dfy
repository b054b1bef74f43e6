/** The customer list of the customer-management page: the search filter, the header totals,
    the add handler with its guard, tag rule and form reset, and the CSV text the export
    builds. The list is replaced wholesale by each handler, so each is a function of the page
    state before it. */
module CustomerManagement {
  import opened Seqs
  import opened Text

  /** A customer record. `value` is kept to integers. */
  datatype Customer = Customer(
    id: string, name: string, company: string, email: string, phone: string, address: string,
    status: string, value: int, lastContact: string, assignedTo: string, tags: seq<string>,
    notes: string)

  /** The add dialog's form. */
  datatype NewCustomer = NewCustomer(
    name: string, company: string, email: string, phone: string, address: string,
    status: string, value: int, assignedTo: string, notes: string)

  /** The part of the page the handlers change: the list, the form and whether the add dialog
      is open. */
  datatype Page = Page(customers: seq<Customer>, form: NewCustomer, addDialogOpen: bool)

  /** The form as the page first shows it and as a successful add leaves it. */
  const EmptyForm := NewCustomer("", "", "", "", "", "potential", 0, "", "")

  // ---------------------------------------------------------------- search and totals

  /** The lowercased search term occurs in the lowercased name or company. */
  predicate Matches(c: Customer, searchTerm: string)
  {
    var q := Lower(searchTerm);
    Contains(Lower(c.name), q) || Contains(Lower(c.company), q)
  }

  function Matching(searchTerm: string): Customer -> bool
  {
    c => Matches(c, searchTerm)
  }

  /** `filteredCustomers`. */
  function FilteredCustomers(customers: seq<Customer>, searchTerm: string): (r: seq<Customer>)
    ensures forall c :: c in r <==> c in customers && Matches(c, searchTerm)
  {
    var r := Filter(Matching(searchTerm), customers);
    assert forall c :: c in r <==> c in customers && Matches(c, searchTerm) by {
      forall c ensures c in r <==> c in customers && Matches(c, searchTerm) {
        FilterMember(Matching(searchTerm), customers, c);
      }
    }
    r
  }

  /** An empty search term keeps every customer, in order. */
  lemma EmptySearchKeepsAll(customers: seq<Customer>)
    ensures FilteredCustomers(customers, "") == customers
  {
    forall i | 0 <= i < |customers| ensures Matches(customers[i], "") {
      ContainsEmpty(Lower(customers[i].name));
    }
    FilterAll(Matching(""), customers);
  }

  /** `customers.reduce((sum, c) => sum + c.value, 0)`: summed from the front. */
  function TotalValue(customers: seq<Customer>): int
  {
    if customers == [] then 0 else TotalValue(customers[..|customers| - 1]) + customers[|customers| - 1].value
  }

  function HasStatus(status: string): Customer -> bool
  {
    (c: Customer) => c.status == status
  }

  datatype Totals = Totals(totalCustomers: nat, activeCustomers: nat, potentialCustomers: nat, totalValue: int)

  /** The four figures of the page header. */
  function GetTotals(customers: seq<Customer>): (r: Totals)
    ensures r.totalCustomers == |customers|
    ensures r.activeCustomers + r.potentialCustomers <= r.totalCustomers
  {
    CountDisjoint(HasStatus("active"), HasStatus("potential"), customers);
    Totals(|customers|, Count(HasStatus("active"), customers), Count(HasStatus("potential"), customers), TotalValue(customers))
  }

  /** The total value is the sum of every customer's value, in whatever order one adds: the
      front-to-back fold equals the back-to-front one. */
  function SumFromBack(customers: seq<Customer>): int
  {
    if customers == [] then 0 else customers[0].value + SumFromBack(customers[1..])
  }

  lemma {:induction false} TotalValueBothWays(customers: seq<Customer>)
    ensures TotalValue(customers) == SumFromBack(customers)
    decreases |customers|
  {
    if customers != [] {
      var n := |customers|;
      TotalValueBothWays(customers[..n - 1]);
      if n > 1 {
        TotalValueBothWays(customers[1..]);
        assert customers[1..][..n - 2] == customers[..n - 1][1..];
        TotalValueBothWays(customers[..n - 1][1..]);
      }
    }
  }

  /** Appending one customer adds one to the total count and its value to the total value. */
  lemma TotalsAppend(customers: seq<Customer>, c: Customer)
    ensures GetTotals(customers + [c]).totalCustomers == GetTotals(customers).totalCustomers + 1
    ensures GetTotals(customers + [c]).totalValue == GetTotals(customers).totalValue + c.value
  {
    assert (customers + [c])[..|customers|] == customers;
  }

  // ---------------------------------------------------------------- adding

  /** The tag rule: a value strictly above 500000 makes a VIP and major account. */
  function TagsFor(value: int): (tags: seq<string>)
    ensures value > 500000 <==> tags == ["VIP", "大客户"]
    ensures value <= 500000 <==> tags == ["新客户"]
  {
    if value > 500000 then ["VIP", "大客户"] else ["新客户"]
  }

  /** The record a successful add builds: id from the clock (`Date.now()`, as `now`), the
      form's fields, the date part of the ISO timestamp (`iso`) as last contact, and the tags. */
  function NewRecord(form: NewCustomer, now: nat, iso: string): Customer
  {
    Customer(NatToString(now), form.name, form.company, form.email, form.phone, form.address,
             form.status, form.value, Split(iso, 'T')[0], form.assignedTo, TagsFor(form.value), form.notes)
  }

  /** `handleAddCustomer()`: a blank name or company (after trimming) changes nothing;
      otherwise the new record is appended, the form reset and the dialog closed. */
  function AddCustomer(page: Page, now: nat, iso: string): (r: Page)
    ensures Blank(page.form.name) || Blank(page.form.company) ==> r == page
    ensures !Blank(page.form.name) && !Blank(page.form.company) ==>
      && |r.customers| == |page.customers| + 1
      && r.customers[..|page.customers|] == page.customers
      && r.form == EmptyForm && !r.addDialogOpen
  {
    if Blank(page.form.name) || Blank(page.form.company) then page
    else
      var customers := page.customers + [NewRecord(page.form, now, iso)];
      assert customers[..|page.customers|] == page.customers;
      Page(customers, EmptyForm, false)
  }

  /** The appended record carries the form's fields, the date part of the timestamp and the
      tags the value calls for. */
  lemma AddedRecord(page: Page, now: nat, iso: string, datePart: string, rest: string)
    requires !Blank(page.form.name) && !Blank(page.form.company)
    requires 'T' !in datePart && iso == datePart + "T" + rest
    ensures var c := AddCustomer(page, now, iso).customers[|page.customers|];
      && c.name == page.form.name && c.company == page.form.company && c.email == page.form.email
      && c.phone == page.form.phone && c.address == page.form.address && c.status == page.form.status
      && c.value == page.form.value && c.assignedTo == page.form.assignedTo && c.notes == page.form.notes
      && c.lastContact == datePart
      && (c.tags == ["VIP", "大客户"] <==> page.form.value > 500000)
  {
    SplitPiece(datePart, 'T', rest);
    assert datePart + "T" + rest == datePart + ['T'] + rest;
  }

  /** A successful add raises the customer count by one and the total value by the form's
      value. */
  lemma AddCustomerTotals(page: Page, now: nat, iso: string)
    requires !Blank(page.form.name) && !Blank(page.form.company)
    ensures var t := GetTotals(AddCustomer(page, now, iso).customers);
      t.totalCustomers == GetTotals(page.customers).totalCustomers + 1 &&
      t.totalValue == GetTotals(page.customers).totalValue + page.form.value
  {
    TotalsAppend(page.customers, NewRecord(page.form, now, iso));
  }

  // ---------------------------------------------------------------- CSV export

  /** The status column: 活跃, 潜在, or 非活跃 for anything else. */
  function StatusLabel(status: string): (r: string)
    ensures r == "非活跃" <==> status != "active" && status != "potential"
  {
    if status == "active" then "活跃" else if status == "potential" then "潜在" else "非活跃"
  }

  const Header: seq<string> := ["姓名", "公司", "邮箱", "电话", "地址", "状态", "价值", "最后联系", "负责人"]

  /** The nine cells of a customer's row. */
  function Row(c: Customer): (cells: seq<string>)
    ensures |cells| == |Header|
  {
    [c.name, c.company, c.email, c.phone, c.address, StatusLabel(c.status), IntToString(c.value), c.lastContact, c.assignedTo]
  }

  /** The header and one row per customer shown. */
  function Rows(customers: seq<Customer>, searchTerm: string): (rows: seq<seq<string>>)
  {
    var shown := FilteredCustomers(customers, searchTerm);
    [Header] + seq(|shown|, i requires 0 <= i < |shown| => Row(shown[i]))
  }

  /** Each row's cells joined by "," and the rows by "\n", without quoting. */
  function Lines(rows: seq<seq<string>>): (lines: seq<string>)
    ensures |lines| == |rows|
  {
    seq(|rows|, i requires 0 <= i < |rows| => Join(rows[i], ","))
  }

  /** `handleExportCustomers()`'s text. */
  function Csv(customers: seq<Customer>, searchTerm: string): string
  {
    Join(Lines(Rows(customers, searchTerm)), "\n")
  }

  /** Neither separator occurs in a cell. */
  predicate Plain(cell: string)
  {
    ',' !in cell && '\n' !in cell
  }

  /** When no cell holds a comma or a line break, the text reads back as the header plus one
      line per customer shown, each of nine cells, in order: splitting on "\n" and then on ","
      gives the table. A cell with either character would break this, as nothing is quoted. */
  lemma CsvReadsBack(customers: seq<Customer>, searchTerm: string)
    requires forall c :: c in customers ==> forall j :: 0 <= j < |Header| ==> Plain(Row(c)[j])
    ensures var lines := Split(Csv(customers, searchTerm), '\n');
      && |lines| == |FilteredCustomers(customers, searchTerm)| + 1
      && forall i :: 0 <= i < |lines| ==> Split(lines[i], ',') == Rows(customers, searchTerm)[i]
  {
    var rows := Rows(customers, searchTerm);
    var shown := FilteredCustomers(customers, searchTerm);
    forall i | 0 <= i < |rows| ensures |rows[i]| >= 1 && forall j :: 0 <= j < |rows[i]| ==> Plain(rows[i][j]) {
      if i > 0 {
        assert rows[i] == Row(shown[i - 1]);
        assert shown[i - 1] in customers;
      }
    }
    var lines := Lines(rows);
    forall i | 0 <= i < |lines| ensures '\n' !in lines[i] && Split(lines[i], ',') == rows[i] {
      JoinFree(rows[i], ',', '\n');
      SplitJoin(rows[i], ',');
    }
    SplitJoin(lines, '\n');
  }
}

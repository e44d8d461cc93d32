/** The customer list page of `client/src/pages/Customers.tsx`: the search and
    balance-status filter, the avatar initials, and the sign handling of the
    balance and date columns. */
module CustomersPage {
  import opened Common
  import opened Schema

  // =====================================================================
  // Filter
  // =====================================================================

  /** The search matches the name (ignoring case), the tax id (as typed) or a
      non-empty email (ignoring case). */
  predicate MatchesSearch(search: string, c: Customer) {
    Contains(Lower(c.name), Lower(search)) ||
    Contains(c.taxId, search) ||
    (c.email.Some? && c.email.value != "" && Contains(Lower(c.email.value), Lower(search)))
  }

  /** "all" admits everyone, "active" a balance of at least 0, "inactive" a negative
      balance, a missing balance reading as 0. Any other filter admits no one. */
  predicate MatchesStatus(statusFilter: string, c: Customer) {
    statusFilter == "all" ||
    (statusFilter == "active" && BalanceOrZero(c.balance) >= 0.0) ||
    (statusFilter == "inactive" && BalanceOrZero(c.balance) < 0.0)
  }

  predicate Shown(search: string, statusFilter: string, c: Customer) {
    MatchesSearch(search, c) && MatchesStatus(statusFilter, c)
  }

  function ShownFilter(search: string, statusFilter: string): Customer -> bool {
    (c: Customer) => Shown(search, statusFilter, c)
  }

  /** `filteredCustomers`, in list order. */
  function FilteredCustomers(customers: seq<Customer>, search: string, statusFilter: string): (r: seq<Customer>)
    ensures forall c :: c in r <==> c in customers && Shown(search, statusFilter, c)
    ensures forall c :: multiset(r)[c] == if Shown(search, statusFilter, c) then multiset(customers)[c] else 0
    ensures IsSubsequence(r, customers)
  {
    FilterIsSubsequence(customers, ShownFilter(search, statusFilter));
    FilterMultiset(customers, ShownFilter(search, statusFilter));
    Filter(customers, ShownFilter(search, statusFilter))
  }

  /** Under any search, the "active" and "inactive" lists split the "all" list:
      every shown customer is in exactly one of them. */
  lemma {:induction false} ActiveInactivePartition(customers: seq<Customer>, search: string)
    ensures |FilteredCustomers(customers, search, "active")| + |FilteredCustomers(customers, search, "inactive")| ==
            |FilteredCustomers(customers, search, "all")|
  {
    var all, active, inactive := ShownFilter(search, "all"), ShownFilter(search, "active"), ShownFilter(search, "inactive");
    forall c ensures all(c) <==> active(c) || inactive(c) {
    }
    FilterPartition(customers, all, active, inactive);
  }

  /** An empty search with the "all" filter shows every customer. */
  lemma {:induction false} NoSearchShowsAll(customers: seq<Customer>)
    ensures FilteredCustomers(customers, "", "all") == customers
  {
    if customers != [] {
      NoSearchShowsAll(customers[1..]);
      assert Lower("") == "";
      ContainsEmpty(Lower(customers[0].name));
    }
  }

  /** A filter value other than "all", "active" and "inactive" shows no one. */
  lemma {:induction false} UnknownStatusShowsNone(customers: seq<Customer>, search: string, statusFilter: string)
    requires statusFilter != "all" && statusFilter != "active" && statusFilter != "inactive"
    ensures FilteredCustomers(customers, search, statusFilter) == []
  {
    FilterNone(customers, ShownFilter(search, statusFilter));
  }

  // =====================================================================
  // Initials
  // =====================================================================

  /** `s.split(" ")`: the pieces between single spaces; an empty string and
      adjacent spaces give empty pieces. */
  function Split(s: string): (words: seq<string>)
    ensures |words| >= 1
    decreases |s|
  {
    if s == [] then [[]]
    else if s[0] == ' ' then [[]] + Split(s[1..])
    else
      var rest := Split(s[1..]);
      [[s[0]] + rest[0]] + rest[1..]
  }

  /** `word.charAt(0)`: the first character, or "" for an empty word. */
  function FirstChar(word: string): string {
    if word == [] then [] else [word[0]]
  }

  /** `words.map(w => w.charAt(0)).join("")` */
  function JoinFirstChars(words: seq<string>): string
    decreases |words|
  {
    if words == [] then [] else FirstChar(words[0]) + JoinFirstChars(words[1..])
  }

  /** An independent reading of the same thing: the non-space characters that start
      the string or follow a space. `atStart` says whether the previous character
      was a space (or there was none). */
  function WordStarts(s: string, atStart: bool): string
    decreases |s|
  {
    if s == [] then []
    else (if atStart && s[0] != ' ' then [s[0]] else []) + WordStarts(s[1..], s[0] == ' ')
  }

  lemma {:induction false} FirstCharsAreWordStarts(s: string)
    ensures JoinFirstChars(Split(s)) == WordStarts(s, true)
    ensures JoinFirstChars(Split(s)[1..]) == WordStarts(s, false)
    decreases |s|
  {
    if s != [] {
      FirstCharsAreWordStarts(s[1..]);
      var words := Split(s);
      if s[0] == ' ' {
        assert words[1..] == Split(s[1..]);
        assert JoinFirstChars(words) == FirstChar(words[0]) + JoinFirstChars(words[1..]);
      } else {
        var rest := Split(s[1..]);
        assert words[0] == [s[0]] + rest[0] && words[1..] == rest[1..];
        assert JoinFirstChars(words) == FirstChar(words[0]) + JoinFirstChars(words[1..]);
      }
    }
  }

  /** `getInitials`: the upper-cased first characters of the words, cut to two. */
  function Initials(name: string): (r: string)
    ensures |r| == if |WordStarts(name, true)| < 2 then |WordStarts(name, true)| else 2
    ensures r == Upper(WordStarts(name, true))[..|r|]
  {
    FirstCharsAreWordStarts(name);
    var all := Upper(JoinFirstChars(Split(name)));
    if |all| <= 2 then all else all[..2]
  }

  // =====================================================================
  // Columns
  // =====================================================================

  /** `Math.abs` */
  function Abs(x: real): (r: real)
    ensures r >= 0.0 && (r == x || r == -x)
  {
    if x < 0.0 then -x else x
  }

  /** `formatBalance`: the magnitude as currency (`formatAmount` is the locale's
      number formatting, left abstract), preceded by "-" when the balance is negative. */
  function FormatBalance(balance: real, formatAmount: real -> string): (r: (string, bool))
    ensures r.1 <==> balance < 0.0
    ensures |r.0| >= 1 && (r.0[0] == '-' <==> balance < 0.0)
    ensures r.0 == (if balance < 0.0 then "-" else "") + "₺" + formatAmount(Abs(balance))
  {
    var isNegative := balance < 0.0;
    var formatted := "₺" + formatAmount(Abs(balance));
    (if isNegative then "-" + formatted else formatted, isNegative)
  }

  /** Balances of opposite sign and equal size differ only by the leading "-". */
  lemma FormatBalanceSymmetric(balance: real, formatAmount: real -> string)
    requires balance > 0.0
    ensures FormatBalance(-balance, formatAmount).0 == "-" + FormatBalance(balance, formatAmount).0
  {
  }

  /** `formatDate`: "-" for a missing or empty date, else the locale's date
      formatting (`formatDay`, left abstract). */
  function FormatDate(date: Option<string>, formatDay: string -> string): (r: string)
    ensures date.None? || date.value == "" ==> r == "-"
    ensures date.Some? && date.value != "" ==> r == formatDay(date.value)
  {
    if date.None? || date.value == "" then "-" else formatDay(date.value)
  }
}

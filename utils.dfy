/**
 * The pure helpers of the utilities file: the e-mail test, text truncation and
 * the status, role and label lookups used by the badges.
 */
module Utils {
  import opened Text
  import opened Types

  /** A character of the regular-expression class `[^\s@]`. */
  predicate IsPlain(c: char) {
    !IsWhitespace(c) && c != '@'
  }

  predicate AllPlain(s: string) {
    forall k :: 0 <= k < |s| ==> IsPlain(s[k])
  }

  /**
   * `/^[^\s@]+@[^\s@]+\.[^\s@]+$/.test(email)`: the string splits as
   * L "@" D "." T with L, D and T non-empty runs of `[^\s@]`.
   */
  predicate IsValidEmail(email: string) {
    exists at, dot :: 0 < at < dot - 1 && dot < |email| - 1 && email[at] == '@' && email[dot] == '.' &&
      AllPlain(email[..at]) && AllPlain(email[at + 1..dot]) && AllPlain(email[dot + 1..])
  }

  /** No whitespace, exactly one '@', not at the start, and a '.' with a character on each side after it. */
  predicate EmailShape(email: string) {
    (forall k :: 0 <= k < |email| ==> !IsWhitespace(email[k])) &&
    exists at :: 0 < at < |email| && email[at] == '@' &&
      (forall k :: 0 <= k < |email| && email[k] == '@' ==> k == at) &&
      exists dot :: at + 1 < dot < |email| - 1 && email[dot] == '.'
  }

  lemma ValidEmailHasShape(email: string)
    requires IsValidEmail(email)
    ensures EmailShape(email)
  {
    var at, dot :| 0 < at < dot - 1 && dot < |email| - 1 && email[at] == '@' && email[dot] == '.' &&
      AllPlain(email[..at]) && AllPlain(email[at + 1..dot]) && AllPlain(email[dot + 1..]);
    forall k | 0 <= k < |email| && k != at && k != dot ensures IsPlain(email[k]) {
      if k < at {
        assert email[..at][k] == email[k];
      } else if k < dot {
        assert email[at + 1..dot][k - at - 1] == email[k];
      } else {
        assert email[dot + 1..][k - dot - 1] == email[k];
      }
    }
    assert forall k :: 0 <= k < |email| && email[k] == '@' ==> k == at;
  }

  lemma ShapeIsValidEmail(email: string)
    requires EmailShape(email)
    ensures IsValidEmail(email)
  {
    var at :| 0 < at < |email| && email[at] == '@' &&
      (forall k :: 0 <= k < |email| && email[k] == '@' ==> k == at) &&
      exists dot :: at + 1 < dot < |email| - 1 && email[dot] == '.';
    var dot :| at + 1 < dot < |email| - 1 && email[dot] == '.';
    assert forall k :: 0 <= k < |email| && k != at ==> IsPlain(email[k]);
    assert AllPlain(email[..at]);
    assert AllPlain(email[at + 1..dot]);
    assert AllPlain(email[dot + 1..]);
  }

  /**
   * The e-mail test in plain words: no whitespace anywhere, exactly one '@',
   * not at the start, and after it a '.' with at least one character on each side.
   */
  lemma EmailCharacterization(email: string)
    ensures IsValidEmail(email) <==>
      (forall k :: 0 <= k < |email| ==> !IsWhitespace(email[k])) &&
      exists at :: 0 < at < |email| && email[at] == '@' &&
        (forall k :: 0 <= k < |email| && email[k] == '@' ==> k == at) &&
        exists dot :: at + 1 < dot < |email| - 1 && email[dot] == '.'
  {
    if IsValidEmail(email) {
      ValidEmailHasShape(email);
    }
    if EmailShape(email) {
      ShapeIsValidEmail(email);
    }
  }

  /** A well-formed address is never blank. */
  lemma ValidEmailIsNotBlank(email: string)
    requires IsValidEmail(email)
    ensures !IsBlank(email)
  {
    var at, dot :| 0 < at < dot - 1 && dot < |email| - 1 && email[at] == '@' && email[dot] == '.' &&
      AllPlain(email[..at]) && AllPlain(email[at + 1..dot]) && AllPlain(email[dot + 1..]);
    BlankIffAllWhitespace(email);
    assert !IsWhitespace(email[at]);
  }

  /** The end index `text.slice(0, end)` uses: a negative end counts back from the length. */
  function SliceEnd(text: string, end: int): (n: nat)
    ensures n <= |text|
  {
    if end < 0 then (if |text| + end < 0 then 0 else |text| + end)
    else if end > |text| then |text| else end
  }

  /** `truncateText`: the text itself when it fits, else its first `maxLength` characters and "...". */
  function TruncateText(text: string, maxLength: int): string {
    if |text| <= maxLength then text else text[..SliceEnd(text, maxLength)] + "..."
  }

  /**
   * A text that fits comes back unchanged; a longer one becomes a prefix of it
   * followed by "...", of length `maxLength + 3` when `maxLength` is not negative;
   * a negative `maxLength` keeps all but the last `-maxLength` characters.
   */
  lemma TruncateTextShape(text: string, maxLength: int)
    ensures |text| <= maxLength ==> TruncateText(text, maxLength) == text
    ensures |text| > maxLength ==>
      var r := TruncateText(text, maxLength);
      |r| >= 3 && r[|r| - 3..] == "..." && r[..|r| - 3] <= text
    ensures 0 <= maxLength < |text| ==>
      var r := TruncateText(text, maxLength);
      |r| == maxLength + 3 && r[..maxLength] == text[..maxLength]
    ensures maxLength < 0 ==>
      TruncateText(text, maxLength) == text[..if |text| + maxLength < 0 then 0 else |text| + maxLength] + "..."
  {
    if |text| > maxLength {
      var r := TruncateText(text, maxLength);
      assert r[..|r| - 3] == text[..SliceEnd(text, maxLength)];
    }
  }

  const GreenBadge := "bg-green-100 text-green-800"
  const RedBadge := "bg-red-100 text-red-800"
  const YellowBadge := "bg-yellow-100 text-yellow-800"
  const BlueBadge := "bg-blue-100 text-blue-800"
  const PurpleBadge := "bg-purple-100 text-purple-800"
  const GrayBadge := "bg-gray-100 text-gray-800"

  /** `getStatusColor`. */
  function StatusColor(status: string): string {
    if status in {"active", "in-stock", "delivered", "paid"} then GreenBadge
    else if status in {"inactive", "out-of-stock", "cancelled", "failed", "refunded"} then RedBadge
    else if status in {"low-stock", "processing", "pending"} then YellowBadge
    else if status == "shipped" then BlueBadge
    else GrayBadge
  }

  /** Every status name of every typed status maps to the colour its meaning suggests, and the map is total. */
  lemma StatusColorOfTypedStatuses(s: string)
    ensures StatusColor(s) in {GreenBadge, RedBadge, YellowBadge, BlueBadge, GrayBadge}
    ensures forall u: UserStatus :: StatusColor(UserStatusName(u)) == if u == Active then GreenBadge else RedBadge
    ensures forall p: ProductStatus :: StatusColor(ProductStatusName(p)) ==
              (match p case InStock => GreenBadge case LowStock => YellowBadge case OutOfStock => RedBadge)
    ensures forall o: OrderStatus :: StatusColor(OrderStatusName(o)) ==
              (match o
               case Pending => YellowBadge case Processing => YellowBadge case Shipped => BlueBadge
               case Delivered => GreenBadge case Cancelled => RedBadge)
    ensures forall p: PaymentStatus :: StatusColor(PaymentStatusName(p)) ==
              (match p
               case PaymentPending => YellowBadge case Paid => GreenBadge case Failed => RedBadge case Refunded => RedBadge)
    ensures (ParseUserStatus(s).None? && ParseProductStatus(s).None? && ParseOrderStatus(s).None? &&
             ParsePaymentStatus(s).None?) ==> StatusColor(s) == GrayBadge
  {
  }

  /** `getRoleColor`. */
  function RoleColor(role: string): string {
    if role == "admin" then PurpleBadge
    else if role == "editor" then BlueBadge
    else GrayBadge
  }

  /** Admin is purple, editor blue, and viewer and every unknown role gray. */
  lemma RoleColorOfRoles(role: string)
    ensures forall r: Role :: RoleColor(RoleName(r)) ==
              (match r case Admin => PurpleBadge case Editor => BlueBadge case Viewer => GrayBadge)
    ensures ParseRole(role).None? ==> RoleColor(role) == GrayBadge
  {
  }

  /** `charAt(0).toUpperCase() + slice(1)`, ASCII case mapping. */
  function Capitalize(s: string): string {
    if s == "" then "" else [UpperChar(s[0])] + s[1..]
  }

  /** `getOrderStatusLabel`. */
  function OrderStatusLabel(status: string): string {
    if status == "pending" then "Pending"
    else if status == "processing" then "Processing"
    else if status == "shipped" then "Shipped"
    else if status == "delivered" then "Delivered"
    else if status == "cancelled" then "Cancelled"
    else Capitalize(status)
  }

  /** The five explicit labels agree with the default branch, so every label is the capitalised status; "" stays "". */
  lemma OrderStatusLabelIsCapitalized(status: string)
    ensures OrderStatusLabel(status) == Capitalize(status)
    ensures OrderStatusLabel("") == ""
    ensures |OrderStatusLabel(status)| == |status|
  {
    if status == "pending" {
      assert Capitalize(status) == "Pending" by { assert UpperChar('p') == 'P'; }
    } else if status == "processing" {
      assert Capitalize(status) == "Processing" by { assert UpperChar('p') == 'P'; }
    } else if status == "shipped" {
      assert Capitalize(status) == "Shipped" by { assert UpperChar('s') == 'S'; }
    } else if status == "delivered" {
      assert Capitalize(status) == "Delivered" by { assert UpperChar('d') == 'D'; }
    } else if status == "cancelled" {
      assert Capitalize(status) == "Cancelled" by { assert UpperChar('c') == 'C'; }
    }
  }
}

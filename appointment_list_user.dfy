/**
 * The user's appointment card (components/AppointmentListUser.tsx): the
 * category line and the status-dependent price line.
 */
module AppointmentListUser {
  import opened Common
  import opened Appointments

  /**
   * The pieces the category `map` renders: each name followed by `", "`,
   * except the last one.
   */
  function CategoryPieces(categories: seq<Category>): (pieces: seq<string>)
    ensures |pieces| == |categories|
  {
    seq(|categories|, i requires 0 <= i < |categories| =>
      if i == |categories| - 1 then categories[i].name else categories[i].name + ", ")
  }

  /** The rendered pieces, one after another. */
  function Concat(pieces: seq<string>): string
  {
    if pieces == [] then "" else pieces[0] + Concat(pieces[1..])
  }

  /**
   * The text of the category line: the names joined by `", "`, so empty for
   * no categories and the bare name for one.
   */
  function CategoryText(categories: seq<Category>): (text: string)
    ensures text == Join(Names(categories), ", ")
    ensures categories == [] ==> text == ""
    ensures |categories| == 1 ==> text == categories[0].name
  {
    CategoryTextIsJoin(categories);
    Concat(CategoryPieces(categories))
  }

  /** The category names, in order. */
  function Names(categories: seq<Category>): (names: seq<string>)
    ensures |names| == |categories|
    ensures forall i :: 0 <= i < |categories| ==> names[i] == categories[i].name
  {
    seq(|categories|, i requires 0 <= i < |categories| => categories[i].name)
  }

  /** `names.join(sep)`: the names with `sep` between neighbours and nowhere else. */
  function Join(names: seq<string>, sep: string): string
  {
    if names == [] then ""
    else if |names| == 1 then names[0]
    else names[0] + sep + Join(names[1..], sep)
  }

  /**
   * The rendered pieces, one after another, are the names joined by `", "`:
   * empty for no categories, the bare name for one, and no trailing separator.
   */
  lemma {:induction false} CategoryTextIsJoin(categories: seq<Category>)
    ensures Concat(CategoryPieces(categories)) == Join(Names(categories), ", ")
    ensures categories == [] ==> Concat(CategoryPieces(categories)) == ""
    ensures |categories| == 1 ==> Concat(CategoryPieces(categories)) == categories[0].name
  {
    if |categories| >= 2 {
      var rest := categories[1..];
      CategoryTextIsJoin(rest);
      assert CategoryPieces(categories)[1..] == CategoryPieces(rest);
      assert Names(categories)[1..] == Names(rest);
    } else if |categories| == 1 {
      assert CategoryPieces(categories) == [categories[0].name];
      assert CategoryPieces(categories)[1..] == [];
      assert Concat(CategoryPieces(categories)) == categories[0].name + Concat([]);
      assert Names(categories) == [categories[0].name];
    }
  }

  /**
   * The price line for a formatted price: "Pago " and the price when
   * confirmed, the bare price when pending, an empty line when canceled, and
   * no line at all for any other status.
   */
  function PriceLine(status: string, price: string): (line: Option<string>)
    ensures line.Some? <==> ValidStatus(status)
    ensures status == Confirmed ==> line == Some("Pago " + price)
    ensures status == Pending ==> line == Some(price)
    ensures status == Canceled ==> line == Some("")
  {
    if status == Confirmed then Some("Pago " + price)
    else if status == Pending then Some(price)
    else if status == Canceled then Some("")
    else None
  }

  /**
   * The badge column and the price line agree: a card shows a badge exactly
   * when it shows a price line, and that is exactly when the status is valid.
   */
  lemma BadgeMatchesPriceLine(status: string, price: string)
    ensures |StatusBadges(status)| == 1 <==> PriceLine(status, price).Some?
    ensures StatusBadges(status) == [] <==> PriceLine(status, price).None?
  {
  }
}

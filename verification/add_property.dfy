/**
  The bind values of `addProperty`: fourteen property fields in the order of
  the INSERT's column list, the nightly cost converted to cents.
 */
module AddProperty {
  import opened Wrappers
  import opened Decimal
  import opened Sql

  datatype Property = Property(
    ownerId: int,
    title: string,
    description: string,
    thumbnailPhotoUrl: string,
    coverPhotoUrl: string,
    costPerNight: int,
    street: string,
    city: string,
    province: string,
    postCode: string,
    country: string,
    parkingSpaces: int,
    numberOfBathrooms: int,
    numberOfBedrooms: int)

  /** Stored costs are in cents; callers give whole currency units. */
  const CentsPerUnit: int := 100

  /** The columns the INSERT names, in order. */
  const Columns: seq<string> := [
    "owner_id", "title", "description", "thumbnail_photo_url", "cover_photo_url",
    "cost_per_night", "street", "city", "province", "post_code", "country",
    "parking_spaces", "number_of_bathrooms", "number_of_bedrooms"]

  /** The SQL types the VALUES placeholders are cast to. */
  datatype Cast = Integer | Varchar | TextType

  function CastName(c: Cast): string {
    match c
    case Integer => "integer"
    case Varchar => "varchar"
    case TextType => "text"
  }

  /** The cast on each VALUES placeholder, in the same order. */
  const Casts: seq<Cast> := [
    Integer, Varchar, TextType, Varchar, Varchar,
    Integer, Varchar, Varchar, Varchar, Varchar, Varchar,
    Integer, Integer, Integer]

  /** The bind values addProperty passes with its INSERT. */
  function InsertParams(p: Property): (r: seq<Param>)
    ensures |r| == |Columns|
    ensures r[5] == Num(p.costPerNight * CentsPerUnit)
  {
    [ Num(p.ownerId), Text(p.title), Text(p.description), Text(p.thumbnailPhotoUrl),
      Text(p.coverPhotoUrl), Num(p.costPerNight * 100), Text(p.street), Text(p.city),
      Text(p.province), Text(p.postCode), Text(p.country), Num(p.parkingSpaces),
      Num(p.numberOfBathrooms), Num(p.numberOfBedrooms) ]
  }

  /** What a column of the new row should receive, looked up by its name. */
  function ColumnValue(p: Property, column: string): Option<Param> {
    match column
    case "owner_id" => Some(Num(p.ownerId))
    case "title" => Some(Text(p.title))
    case "description" => Some(Text(p.description))
    case "thumbnail_photo_url" => Some(Text(p.thumbnailPhotoUrl))
    case "cover_photo_url" => Some(Text(p.coverPhotoUrl))
    case "cost_per_night" => Some(Num(CentsPerUnit * p.costPerNight))
    case "street" => Some(Text(p.street))
    case "city" => Some(Text(p.city))
    case "province" => Some(Text(p.province))
    case "post_code" => Some(Text(p.postCode))
    case "country" => Some(Text(p.country))
    case "parking_spaces" => Some(Num(p.parkingSpaces))
    case "number_of_bathrooms" => Some(Num(p.numberOfBathrooms))
    case "number_of_bedrooms" => Some(Num(p.numberOfBedrooms))
    case _ => None
  }

  /** The i-th bind value is what the i-th listed column should receive, and
      its kind agrees with the cast on the i-th placeholder. */
  lemma ParamsMatchColumns(p: Property)
    ensures forall i :: 0 <= i < |Columns| ==> ColumnValue(p, Columns[i]) == Some(InsertParams(p)[i])
    ensures forall i :: 0 <= i < |Columns| ==> (InsertParams(p)[i].Num? <==> Casts[i] == Integer)
  {
    var r := InsertParams(p);
    assert ColumnValue(p, Columns[0]) == Some(r[0]);
    assert ColumnValue(p, Columns[1]) == Some(r[1]);
    assert ColumnValue(p, Columns[2]) == Some(r[2]);
    assert ColumnValue(p, Columns[3]) == Some(r[3]);
    assert ColumnValue(p, Columns[4]) == Some(r[4]);
    assert ColumnValue(p, Columns[5]) == Some(r[5]);
    assert ColumnValue(p, Columns[6]) == Some(r[6]);
    assert ColumnValue(p, Columns[7]) == Some(r[7]);
    assert ColumnValue(p, Columns[8]) == Some(r[8]);
    assert ColumnValue(p, Columns[9]) == Some(r[9]);
    assert ColumnValue(p, Columns[10]) == Some(r[10]);
    assert ColumnValue(p, Columns[11]) == Some(r[11]);
    assert ColumnValue(p, Columns[12]) == Some(r[12]);
    assert ColumnValue(p, Columns[13]) == Some(r[13]);
  }

  function TextAt(ps: seq<Param>, i: nat): string
    requires i < |ps| && ps[i].Text?
  {
    ps[i].s
  }

  function NumAt(ps: seq<Param>, i: nat): int
    requires i < |ps| && ps[i].Num?
  {
    ps[i].n
  }

  predicate WellShaped(ps: seq<Param>) {
    && |ps| == |Casts|
    && (forall i :: 0 <= i < |ps| ==> (ps[i].Num? <==> Casts[i] == Integer))
    && ps[5].Num? && ps[5].n % CentsPerUnit == 0
  }

  /** Reads a property back from INSERT bind values, converting cents to units;
      None for a list no property produces. */
  function PropertyOfParams(ps: seq<Param>): Option<Property> {
    if !WellShaped(ps) then None
    else
      Some(Property(
        NumAt(ps, 0), TextAt(ps, 1), TextAt(ps, 2), TextAt(ps, 3), TextAt(ps, 4),
        NumAt(ps, 5) / CentsPerUnit, TextAt(ps, 6), TextAt(ps, 7), TextAt(ps, 8),
        TextAt(ps, 9), TextAt(ps, 10), NumAt(ps, 11), NumAt(ps, 12), NumAt(ps, 13)))
  }

  /** Every property is recovered from its bind values; in particular the
      cost is stored as exactly 100 times the given one. */
  lemma ParamsRoundTrip(p: Property)
    ensures PropertyOfParams(InsertParams(p)) == Some(p)
  {
    ParamsMatchColumns(p);
  }

  /** Conversely, the bind values a property is read from are its bind values. */
  lemma PropertyOfParamsSound(ps: seq<Param>, p: Property)
    requires PropertyOfParams(ps) == Some(p)
    ensures InsertParams(p) == ps
  {
    var r := InsertParams(p);
    forall i | 0 <= i < |ps|
      ensures r[i] == ps[i]
    {
      if i == 5 {
        assert NumAt(ps, 5) / CentsPerUnit * 100 == ps[5].n;
      }
    }
  }

  /** The VALUES list: `$k::cast` for each cast, numbered from `k`. */
  function ValuesText(casts: seq<Cast>, k: nat): string
    decreases |casts|
  {
    if |casts| == 0 then ""
    else "$" + NatToString(k) + (CastText(casts) + ValuesText(casts[1..], k + 1))
  }

  /** The cast after a placeholder and the separator before the next one. */
  function CastText(casts: seq<Cast>): string
    requires |casts| > 0
  {
    "::" + CastName(casts[0]) + (if |casts| == 1 then "" else ",\n  ")
  }

  lemma CastTextClean(casts: seq<Cast>)
    requires |casts| > 0
    ensures '$' !in CastText(casts)
  {
    assert '$' !in ",\n  ";
    match casts[0]
    case Integer => assert '$' !in "::" + "integer";
    case Varchar => assert '$' !in "::" + "varchar";
    case TextType => assert '$' !in "::" + "text";
  }

  /** One placeholder in front of the rest: if the rest numbers its
      placeholders from k + 1, the whole list numbers them from k. */
  lemma ValuesTextStep(casts: seq<Cast>, k: nat, tail: seq<nat>)
    requires |casts| > 0
    requires StartsClean(ValuesText(casts[1..], k + 1))
    requires Placeholders(ValuesText(casts[1..], k + 1)) == tail
    ensures Placeholders(ValuesText(casts, k)) == [k] + tail
  {
    var mid := CastText(casts);
    var rest := ValuesText(casts[1..], k + 1);
    assert Placeholders(mid + rest) == tail by {
      PlaceholdersAppend(mid, rest);
      CastTextClean(casts);
      PlaceholdersNoDollar(mid);
    }
    assert StartsClean(mid + rest) by {
      assert (mid + rest)[0] == mid[0] == ':';
    }
    PlaceholderToken(k, mid + rest);
  }

  lemma CountingCons(k: nat, n: nat)
    requires n > 0
    ensures Counting(k, n) == [k] + Counting(k + 1, n - 1)
  {
  }

  lemma ValuesTextStartsClean(casts: seq<Cast>, k: nat)
    ensures StartsClean(ValuesText(casts, k))
  {
    if |casts| > 0 {
      assert ValuesText(casts, k)[0] == '$';
    }
  }

  lemma {:induction false} ValuesTextPlaceholders(casts: seq<Cast>, k: nat)
    ensures Placeholders(ValuesText(casts, k)) == Counting(k, |casts|)
    decreases |casts|
  {
    if |casts| == 0 {
      assert ValuesText(casts, k) == [];
    } else {
      var tail := Counting(k + 1, |casts| - 1);
      assert Placeholders(ValuesText(casts[1..], k + 1)) == tail by {
        ValuesTextPlaceholders(casts[1..], k + 1);
      }
      ValuesTextStartsClean(casts[1..], k + 1);
      ValuesTextStep(casts, k, tail);
      CountingCons(k, |casts|);
    }
  }

  lemma ColumnCount()
    ensures |Columns| == |Casts| == 14
  {
  }

  /** The INSERT's placeholders read `$1` to `$14` in column order, so the
      i-th bind value lands in the i-th listed column. */
  lemma InsertPlaceholders()
    ensures Placeholders(ValuesText(Casts, 1)) == Iota(|Columns|)
  {
    assert Placeholders(ValuesText(Casts, 1)) == Counting(1, |Casts|) by {
      ValuesTextPlaceholders(Casts, 1);
    }
    assert |Casts| == 14 && |Columns| == 14 by {
      ColumnCount();
    }
    assert Counting(1, 14) == Iota(14);
  }

  /** The last entry of the VALUES list: a two-digit placeholder. */
  lemma ExampleLastValueText()
    ensures ValuesText([Integer], 14) == "$14::integer"
  {
    assert NatToString(14) == "14" by {
      assert NatToString(1) == "1";
      assert NatToString(4) == "4";
    }
  }
}

/** The listing generator: the fixed fixture tables for five cities and the construction
    of the property cards shown after the budget step. */
module Listings {
  import opened Options

  /** Whether the user wants to buy or to rent; also the `type` of each property card. */
  datatype Intent = Buy | Rent

  /** One row of a city's fixture table. */
  datatype Fixture = Fixture(
    title: string,
    suburb: string,
    bedrooms: nat,
    bathrooms: nat,
    carSpaces: nat,
    image: string,
    description: string)

  /** The advertised price: dollars per week for a rental, a sale price otherwise. */
  datatype Price = PerWeek(dollars: nat) | Sale(dollars: nat)

  /** One property card. */
  datatype Property = Property(
    id: nat,
    title: string,
    location: string,
    price: Price,
    bedrooms: nat,
    bathrooms: nat,
    carSpaces: nat,
    kind: Intent,
    image: string,
    description: string,
    paymentOptions: seq<string>)

  const RentPaymentOptions: seq<string> :=
    ["Weekly payments", "Monthly payments", "Bond (4 weeks)", "Direct debit available"]

  const BuyPaymentOptions: seq<string> :=
    ["Home loan required", "Deposit 10-20%", "First home buyer grants available", "Stamp duty calculator needed"]

  /** The cities the `propertyData` table has an entry for. */
  datatype DataCity = Sydney | Melbourne | Brisbane | Perth | Adelaide

  /** Each city's table in `propertyData` has ten rows. */
  const TableSize: nat := 10

  /** `propertyData[city][k]`: row `k` of the city's fixture table. */
  function PropertyData(city: DataCity, k: nat): Fixture
    requires k < TableSize
  {
    match city
    case Sydney => (
      match k
      case 0 => Fixture("Modern 2BR Apartment", "Bondi", 2, 2, 1, "photo-1564013799919-ab600027ffc6", "Stunning ocean views, walk to beach")
      case 1 => Fixture("Family Townhouse", "Parramatta", 3, 2, 2, "photo-1570129477492-45c003edd2be", "Modern kitchen, private courtyard")
      case 2 => Fixture("Luxury Penthouse", "Circular Quay", 3, 3, 2, "photo-1487958449943-2429e8be8625", "Harbor views, premium finishes")
      case 3 => Fixture("Cozy Studio", "Surry Hills", 1, 1, 0, "photo-1524230572899-a752b3835840", "Perfect for young professionals")
      case 4 => Fixture("Spacious Family Home", "Epping", 4, 3, 2, "photo-1568605114967-8130f3a36994", "Large backyard, near schools")
      case 5 => Fixture("Contemporary Unit", "Newtown", 2, 1, 1, "photo-1493397212122-2b85dda8106b", "Trendy location, cafes nearby")
      case 6 => Fixture("Waterfront Apartment", "Manly", 2, 2, 1, "photo-1721322800607-8c38375eef04", "Beach lifestyle, ferry access")
      case 7 => Fixture("Heritage Terrace", "Paddington", 3, 2, 1, "photo-1483058712412-4245e9b90334", "Character home, restored features")
      case 8 => Fixture("High-rise Living", "Chatswood", 1, 1, 1, "photo-1564013799919-ab600027ffc6", "Shopping center access, train station")
      case 9 => Fixture("Garden Apartment", "Lane Cove", 2, 2, 1, "photo-1570129477492-45c003edd2be", "Quiet area, leafy surrounds"))
    case Melbourne => (
      match k
      case 0 => Fixture("CBD Apartment", "Southbank", 2, 2, 1, "photo-1487958449943-2429e8be8625", "City skyline views, tram access")
      case 1 => Fixture("Victorian Terrace", "Fitzroy", 3, 2, 1, "photo-1524230572899-a752b3835840", "Original features, trendy location")
      case 2 => Fixture("Modern Townhouse", "Docklands", 3, 2, 2, "photo-1568605114967-8130f3a36994", "Waterfront living, new development")
      case 3 => Fixture("Family Home", "Camberwell", 4, 3, 2, "photo-1493397212122-2b85dda8106b", "Established neighborhood, good schools")
      case 4 => Fixture("Loft Apartment", "Richmond", 2, 1, 1, "photo-1721322800607-8c38375eef04", "Industrial chic, warehouse conversion")
      case 5 => Fixture("Beachside Unit", "St Kilda", 1, 1, 1, "photo-1483058712412-4245e9b90334", "Beach access, vibrant nightlife")
      case 6 => Fixture("Suburban House", "Glen Waverley", 4, 2, 2, "photo-1564013799919-ab600027ffc6", "Family-friendly, Asian cuisine")
      case 7 => Fixture("Inner City Living", "Carlton", 2, 2, 1, "photo-1570129477492-45c003edd2be", "University area, cafe culture")
      case 8 => Fixture("Garden Home", "Brighton", 3, 2, 2, "photo-1487958449943-2429e8be8625", "Beach suburb, family lifestyle")
      case 9 => Fixture("Modern Unit", "South Yarra", 2, 2, 1, "photo-1524230572899-a752b3835840", "Shopping precinct, dining options"))
    case Brisbane => (
      match k
      case 0 => Fixture("River Views Apartment", "New Farm", 2, 2, 1, "photo-1568605114967-8130f3a36994", "Brisbane River views, trendy area")
      case 1 => Fixture("Queenslander Home", "Paddington", 3, 2, 2, "photo-1493397212122-2b85dda8106b", "Traditional architecture, character")
      case 2 => Fixture("High-rise Living", "South Bank", 1, 1, 1, "photo-1721322800607-8c38375eef04", "Cultural precinct, city views")
      case 3 => Fixture("Family Townhouse", "Toowong", 3, 2, 2, "photo-1483058712412-4245e9b90334", "University area, train access")
      case 4 => Fixture("Modern Apartment", "Fortitude Valley", 2, 2, 1, "photo-1564013799919-ab600027ffc6", "Entertainment district, nightlife")
      case 5 => Fixture("Suburban Home", "Indooroopilly", 4, 3, 2, "photo-1570129477492-45c003edd2be", "Shopping center, family area")
      case 6 => Fixture("Penthouse Living", "Kangaroo Point", 3, 3, 2, "photo-1487958449943-2429e8be8625", "Story Bridge views, luxury finishes")
      case 7 => Fixture("Garden Unit", "West End", 2, 1, 1, "photo-1524230572899-a752b3835840", "Artistic community, markets")
      case 8 => Fixture("Waterfront Home", "Bulimba", 3, 2, 2, "photo-1568605114967-8130f3a36994", "River access, established area")
      case 9 => Fixture("City Fringe Living", "Spring Hill", 1, 1, 1, "photo-1493397212122-2b85dda8106b", "Close to CBD, historic area"))
    case Perth => (
      match k
      case 0 => Fixture("Beachside Apartment", "Scarborough", 2, 2, 1, "photo-1721322800607-8c38375eef04", "Ocean views, beach lifestyle")
      case 1 => Fixture("Family Home", "Subiaco", 4, 2, 2, "photo-1483058712412-4245e9b90334", "Central location, character home")
      case 2 => Fixture("Modern Townhouse", "Joondalup", 3, 2, 2, "photo-1564013799919-ab600027ffc6", "New development, family-friendly")
      case 3 => Fixture("CBD Living", "Perth CBD", 1, 1, 1, "photo-1570129477492-45c003edd2be", "City lifestyle, transport hub")
      case 4 => Fixture("Riverside Unit", "South Perth", 2, 2, 1, "photo-1487958449943-2429e8be8625", "Swan River views, zoo nearby")
      case 5 => Fixture("Coastal Home", "Fremantle", 3, 2, 2, "photo-1524230572899-a752b3835840", "Historic port, weekend markets")
      case 6 => Fixture("Luxury Villa", "Cottesloe", 4, 3, 2, "photo-1568605114967-8130f3a36994", "Premium beachside, resort living")
      case 7 => Fixture("Garden Apartment", "Mount Lawley", 2, 1, 1, "photo-1493397212122-2b85dda8106b", "Trendy area, cafes and bars")
      case 8 => Fixture("Family Estate", "Karrinyup", 4, 3, 3, "photo-1721322800607-8c38375eef04", "Shopping center, schools nearby")
      case 9 => Fixture("Modern Unit", "Leederville", 1, 1, 1, "photo-1483058712412-4245e9b90334", "Student area, close to city"))
    case Adelaide => (
      match k
      case 0 => Fixture("Heritage Apartment", "North Adelaide", 2, 2, 1, "photo-1564013799919-ab600027ffc6", "Historic area, parklands nearby")
      case 1 => Fixture("Modern Townhouse", "Mawson Lakes", 3, 2, 2, "photo-1570129477492-45c003edd2be", "New development, uni access")
      case 2 => Fixture("City Living", "Adelaide CBD", 1, 1, 1, "photo-1487958449943-2429e8be8625", "Central location, tram access")
      case 3 => Fixture("Family Home", "Burnside", 4, 3, 2, "photo-1524230572899-a752b3835840", "Established suburb, good schools")
      case 4 => Fixture("Beachside Unit", "Glenelg", 2, 2, 1, "photo-1568605114967-8130f3a36994", "Jetty Road shopping, beach access")
      case 5 => Fixture("Hills Living", "Stirling", 3, 2, 2, "photo-1493397212122-2b85dda8106b", "Adelaide Hills, scenic views")
      case 6 => Fixture("Garden Home", "Unley", 3, 2, 1, "photo-1721322800607-8c38375eef04", "Character area, cafes nearby")
      case 7 => Fixture("Modern Unit", "West Lakes", 2, 2, 1, "photo-1483058712412-4245e9b90334", "Waterfront living, golf course")
      case 8 => Fixture("Family Estate", "Tea Tree Gully", 4, 2, 2, "photo-1564013799919-ab600027ffc6", "Family suburb, new housing")
      case 9 => Fixture("Inner City Living", "Norwood", 2, 1, 1, "photo-1570129477492-45c003edd2be", "Parade shopping, food scene"))
  }

  /** The property name under which the city's table is stored in `propertyData`. */
  function Key(c: DataCity): string
  {
    match c
    case Sydney => "Sydney"
    case Melbourne => "Melbourne"
    case Brisbane => "Brisbane"
    case Perth => "Perth"
    case Adelaide => "Adelaide"
  }

  /** `propertyData[location]`: the entry stored under the key `location`, if there is one.
      Keys are compared exactly, as the property names of an object literal are. */
  function DataKey(location: string): (r: Option<DataCity>)
    ensures r.Some? <==> location in {"Sydney", "Melbourne", "Brisbane", "Perth", "Adelaide"}
    ensures r.Some? ==> Key(r.value) == location
  {
    if location == "Sydney" then Some(Sydney)
    else if location == "Melbourne" then Some(Melbourne)
    else if location == "Brisbane" then Some(Brisbane)
    else if location == "Perth" then Some(Perth)
    else if location == "Adelaide" then Some(Adelaide)
    else None
  }

  /** Looking a city's own key up finds that city's entry. */
  lemma KeyRoundTrip(c: DataCity)
    ensures DataKey(Key(c)) == Some(c)
  {
  }

  /** The city whose table `propertyData[location] || propertyData.Sydney` selects: the
      entry stored under `location` when there is one, else Sydney's. */
  function TableCity(location: string): (c: DataCity)
    ensures DataKey(location).None? ==> c == Sydney
    ensures DataKey(location).Some? ==> Key(c) == location
  {
    match DataKey(location)
    case Some(city) => city
    case None => Sydney
  }

  /** The table a listing is built from, row by row. */
  function FixturesFor(location: string): (r: seq<Fixture>)
    ensures |r| == TableSize
  {
    seq(TableSize, k requires 0 <= k < TableSize => PropertyData(TableCity(location), k))
  }

  /** The image address built from a fixture's photo identifier. */
  function ImageUrl(photo: string): string
  {
    "https://images.unsplash.com/" + photo + "?w=400&h=300&fit=crop"
  }

  /** The price of card `k`. The source draws it from `Math.random()`; here `draw(k)` is an
      arbitrary natural number supplied by the caller, reduced to the source's range:
      200 to 600 dollars a week to rent, 400,000 to 900,000 dollars to buy. The top value
      is included: for the largest double below 1, `Math.random() * 400 + 200` rounds to
      exactly 600 (and the sale formula to 900,000). */
  function PriceOf(intent: Intent, draw: nat -> nat, k: nat): (p: Price)
    ensures intent == Rent ==> p.PerWeek? && 200 <= p.dollars <= 600
    ensures intent == Buy ==> p.Sale? && 400000 <= p.dollars <= 900000
  {
    if intent == Rent then PerWeek(200 + draw(k) % 401) else Sale(400000 + draw(k) % 500001)
  }

  function PaymentOptionsFor(intent: Intent): seq<string>
  {
    if intent == Rent then RentPaymentOptions else BuyPaymentOptions
  }

  /** The card built from fixture `f` at (zero-based) position `k` of the table. */
  function CardOf(k: nat, f: Fixture, location: string, intent: Intent, draw: nat -> nat): Property
  {
    Property(
      id := k + 1,
      title := f.title,
      location := f.suburb + ", " + location,
      price := PriceOf(intent, draw, k),
      bedrooms := f.bedrooms,
      bathrooms := f.bathrooms,
      carSpaces := f.carSpaces,
      kind := intent,
      image := ImageUrl(f.image),
      description := f.description,
      paymentOptions := PaymentOptionsFor(intent))
  }

  /** `generateProperties(location, budget, intent)`: one card per fixture of the city, so
      ten cards for every location. The `budget` parameter is accepted and never read. */
  function GenerateProperties(location: string, budget: string, intent: Intent, draw: nat -> nat): (r: seq<Property>)
    ensures |r| == TableSize
  {
    var fs := FixturesFor(location);
    seq(|fs|, k requires 0 <= k < |fs| => CardOf(k, fs[k], location, intent, draw))
  }

  /** Card `k` of a listing: numbered `k + 1`, typed with the intent, labelled with the
      fixture's suburb and the requested location (also on the Sydney fallback), its
      description fields copied from fixture `k`, its payment options and price chosen by
      the intent. */
  lemma ListingShape(location: string, budget: string, intent: Intent, draw: nat -> nat, k: nat)
    requires k < |GenerateProperties(location, budget, intent, draw)|
    ensures var p, f := GenerateProperties(location, budget, intent, draw)[k], PropertyData(TableCity(location), k);
      && p.id == k + 1
      && p.kind == intent
      && p.location == f.suburb + ", " + location
      && p.title == f.title && p.description == f.description
      && p.bedrooms == f.bedrooms && p.bathrooms == f.bathrooms && p.carSpaces == f.carSpaces
      && p.image == ImageUrl(f.image)
      && p.paymentOptions == (if intent == Rent then RentPaymentOptions else BuyPaymentOptions)
      && |p.paymentOptions| == 4
      && (p.price.PerWeek? <==> intent == Rent)
      && (intent == Rent ==> 200 <= p.price.dollars <= 600)
      && (intent == Buy ==> 400000 <= p.price.dollars <= 900000)
  {
  }

  /** Card numbers run from 1 to the length of the listing, so no two cards share one. */
  lemma ListingIdsDistinct(location: string, budget: string, intent: Intent, draw: nat -> nat, j: nat, k: nat)
    requires j < |GenerateProperties(location, budget, intent, draw)|
    requires k < |GenerateProperties(location, budget, intent, draw)|
    requires GenerateProperties(location, budget, intent, draw)[j].id == GenerateProperties(location, budget, intent, draw)[k].id
    ensures j == k
  {
  }

  /** A city without a table of its own is listed with Sydney's cards, relabelled with
      that city's name. */
  lemma UnknownCityListsSydney(location: string, budget: string, intent: Intent, draw: nat -> nat)
    requires DataKey(location).None?
    ensures var r, s := GenerateProperties(location, budget, intent, draw), GenerateProperties("Sydney", budget, intent, draw);
      && |r| == |s|
      && forall k :: 0 <= k < |r| ==> r[k] == s[k].(location := PropertyData(Sydney, k).suburb + ", " + location)
  {
  }

  /** A city with a table of its own is listed with that table's cards, in order. */
  lemma KnownCityListsOwnTable(c: DataCity, budget: string, intent: Intent, draw: nat -> nat, k: nat)
    requires k < TableSize
    ensures var p, f := GenerateProperties(Key(c), budget, intent, draw)[k], PropertyData(c, k);
      && p.title == f.title && p.location == f.suburb + ", " + Key(c)
      && p.bedrooms == f.bedrooms && p.bathrooms == f.bathrooms && p.carSpaces == f.carSpaces
      && p.image == ImageUrl(f.image) && p.description == f.description
  {
    KeyRoundTrip(c);
    ListingShape(Key(c), budget, intent, draw, k);
  }

  /** The listing does not depend on the budget. */
  lemma BudgetIgnored(location: string, b1: string, b2: string, intent: Intent, draw: nat -> nat)
    ensures GenerateProperties(location, b1, intent, draw) == GenerateProperties(location, b2, intent, draw)
  {
  }
}

/** The keyword classifier of classify_transactions.py: the first category,
    in table order, with a keyword occurring in the lower-cased description
    wins; otherwise the description gets the sentinel category. */
module Classifier {
  import opened Wrappers
  import opened Text
  import opened Grouping
  import opened Sequences
  import opened Transactions

  /** An ordered keyword table: (category, keywords) in dict insertion order. */
  type Table = seq<(string, seq<string>)>

  /** The category of a description that matches no keyword. */
  const Other: string := "Другое"

  /** The fixed table of `create_categories`, in its declaration order. The
      order matters: "метро" is a keyword of both Супермаркеты and
      Общественный транспорт, and the earlier entry wins. */
  function CreateCategories(): (t: Table)
    ensures |t| == 15
  {
    [
      ("Супермаркеты", SupermarketsKeywords),
      ("Фастфуд", FastFoodKeywords),
      ("Ресторан", RestaurantsKeywords),
      ("Такси", TaxiKeywords),
      ("Каршеринг", CarSharingKeywords),
      ("Общественный транспорт", PublicTransportKeywords),
      ("ЖКХ", UtilitiesKeywords),
      ("Связь", TelecomKeywords),
      ("Онлайн кинотеатры", OnlineCinemasKeywords),
      ("Онлайн-сервисы", OnlineServicesKeywords),
      ("Маркетплейсы", MarketplacesKeywords),
      ("Развлечения", EntertainmentKeywords),
      ("Магазины электроники", ElectronicsStoresKeywords),
      ("Зарплата", SalaryKeywords),
      ("Переводы", TransfersKeywords)
    ]
  }

  const SupermarketsKeywords: seq<string> := ["пятерочка", "магнит", "перекресток", "лента", "ашан", "метро", "окей", "дикси", "вкусВилл", "билла", "быстроном", "ярче"]
  const FastFoodKeywords: seq<string> := ["вкусно и точка", "rostic's", "теремок", "академия кофе", "бургер кинг", "хан буз", "свиток"]
  const RestaurantsKeywords: seq<string> := ["якитория", "чайхона", "шоколадница", "кофемания"]
  const TaxiKeywords: seq<string> := ["яндекс.такси", "такси maxim", "uber"]
  const CarSharingKeywords: seq<string> := ["каршеринг", "ситимобил"]
  const PublicTransportKeywords: seq<string> := ["метро", "аэроэкспресс", "ппк", "мцд"]
  const UtilitiesKeywords: seq<string> := ["новосибэнергосбыт", "моэк", "ростелеком", "мгтс", "дом.ru", "новосибводоканал"]
  const TelecomKeywords: seq<string> := ["мтс", "tele2", "мегафон", "билайн"]
  const OnlineCinemasKeywords: seq<string> := ["ivi", "oko", "kinopub"]
  const OnlineServicesKeywords: seq<string> := ["яндекс.плюс", "vk", "steam", "youtube premium", "apple music", "spotify"]
  const MarketplacesKeywords: seq<string> := ["ozon", "wildberries", "яндекс.маркет"]
  const EntertainmentKeywords: seq<string> := ["кинотеатр", "арена", "цирк", "парк", "зоопарк"]
  const ElectronicsStoresKeywords: seq<string> := ["м.видео", "эльдорадо", "связной", "евросеть", "dns"]
  const SalaryKeywords: seq<string> := ["зарплата"]
  const TransfersKeywords: seq<string> := ["перевод"]

  /** Some keyword of `keywords` occurs in `s`. */
  ghost predicate AnyKeywordOccurs(keywords: seq<string>, s: string) {
    exists k :: 0 <= k < |keywords| && Occurs(keywords[k], s)
  }

  /** `any(key_word in s for key_word in keywords)`. */
  function HasKeyword(keywords: seq<string>, s: string): (r: bool)
    ensures r <==> AnyKeywordOccurs(keywords, s)
    decreases |keywords|
  {
    if keywords == [] then false
    else if Contains(keywords[0], s) then true
    else
      var r := HasKeyword(keywords[1..], s);
      assert AnyKeywordOccurs(keywords, s) <==> Occurs(keywords[0], s) || AnyKeywordOccurs(keywords[1..], s) by {
        if AnyKeywordOccurs(keywords, s) && !Occurs(keywords[0], s) {
          var k :| 0 <= k < |keywords| && Occurs(keywords[k], s);
          assert keywords[1..][k - 1] == keywords[k];
        }
        if AnyKeywordOccurs(keywords[1..], s) {
          var k :| 0 <= k < |keywords[1..]| && Occurs(keywords[1..][k], s);
          assert keywords[k + 1] == keywords[1..][k];
        }
      }
      r
  }

  /** Entry `i` is the first entry of `table` with a keyword occurring in `s`. */
  ghost predicate FirstMatchAt(table: Table, s: string, i: int) {
    && 0 <= i < |table|
    && AnyKeywordOccurs(table[i].1, s)
    && forall j :: 0 <= j < i ==> !AnyKeywordOccurs(table[j].1, s)
  }

  /** No entry of `table` has a keyword occurring in `s`. */
  ghost predicate NoMatch(table: Table, s: string) {
    forall j :: 0 <= j < |table| ==> !AnyKeywordOccurs(table[j].1, s)
  }

  /** The loop of `categorize_transaction` over an already lower-cased text. */
  function FirstMatch(table: Table, s: string): (r: string)
    ensures NoMatch(table, s) ==> r == Other
    ensures forall i :: FirstMatchAt(table, s, i) ==> r == table[i].0
    ensures r == Other || r in Keys(table)
    decreases |table|
  {
    if table == [] then Other
    else if HasKeyword(table[0].1, s) then table[0].0
    else
      var r := FirstMatch(table[1..], s);
      assert Keys(table[1..]) == Keys(table)[1..];
      assert NoMatch(table, s) ==> NoMatch(table[1..], s) by {
        if NoMatch(table, s) {
          forall j | 0 <= j < |table[1..]| ensures !AnyKeywordOccurs(table[1..][j].1, s) {
            assert table[1..][j] == table[j + 1];
          }
        }
      }
      assert forall i :: FirstMatchAt(table, s, i) ==> FirstMatchAt(table[1..], s, i - 1) by {
        forall i | FirstMatchAt(table, s, i) ensures FirstMatchAt(table[1..], s, i - 1) {
          assert i != 0;
          forall j | 0 <= j < i - 1 ensures !AnyKeywordOccurs(table[1..][j].1, s) {
            assert table[1..][j] == table[j + 1];
          }
        }
      }
      r
  }

  /** `categorize_transaction(description, table)`: the description is
      lower-cased, then the first entry with a keyword occurring in it wins,
      and "Другое" is returned when there is none. */
  function CategorizeTransaction(description: string, table: Table): (r: string)
    ensures NoMatch(table, Lower(description)) ==> r == Other
    ensures forall i :: FirstMatchAt(table, Lower(description), i) ==> r == table[i].0
    ensures r == Other || r in Keys(table)
  {
    FirstMatch(table, Lower(description))
  }
  /** Classifies every record with `table`: the list keeps its length and
      order, every record's category becomes the category of its description,
      and no other field changes. */
  method CategorizeAll(ts: seq<Txn>, table: Table) returns (r: seq<Txn>)
    ensures |r| == |ts|
    ensures forall i :: 0 <= i < |ts| ==> r[i].category == Some(CategorizeTransaction(ts[i].description, table))
    ensures forall i :: 0 <= i < |ts| ==>
      r[i].date == ts[i].date && r[i].amount == ts[i].amount && r[i].description == ts[i].description
    ensures Categorized(r)
  {
    r := [];
    var i := 0;
    while i < |ts|
      invariant 0 <= i <= |ts|
      invariant |r| == i
      invariant forall j :: 0 <= j < i ==> r[j] == ts[j].(category := Some(CategorizeTransaction(ts[j].description, table)))
    {
      var category := CategorizeTransaction(ts[i].description, table);
      r := r + [ts[i].(category := Some(category))];
      i := i + 1;
    }
  }

  /** `categorize_all_transactions`: `CategorizeAll` with the fixed table of
      `create_categories`. The source writes the category into the input
      dicts in place; here the updated records are new values. */
  method CategorizeAllTransactions(ts: seq<Txn>) returns (r: seq<Txn>)
    ensures |r| == |ts|
    ensures forall i :: 0 <= i < |ts| ==> r[i].category == Some(CategorizeTransaction(ts[i].description, CreateCategories()))
    ensures forall i :: 0 <= i < |ts| ==>
      r[i].date == ts[i].date && r[i].amount == ts[i].amount && r[i].description == ts[i].description
    ensures Categorized(r)
  {
    r := CategorizeAll(ts, CreateCategories());
  }
}

/** Properties of the classifier that relate several calls or concern the
    fixed table of `create_categories`. */
module ClassifierProps {
  import opened Text
  import opened Classifier

  /** The two postconditions of `CategorizeTransaction` cover every input:
      either no entry matches or some entry is the first match. */
  lemma {:induction false} MatchCases(table: Table, s: string)
    ensures NoMatch(table, s) || exists i :: FirstMatchAt(table, s, i)
    decreases |table|
  {
    if table != [] && !AnyKeywordOccurs(table[0].1, s) {
      MatchCases(table[1..], s);
      if NoMatch(table[1..], s) {
        forall j | 0 <= j < |table| ensures !AnyKeywordOccurs(table[j].1, s) {
          if j > 0 {
            assert table[1..][j - 1] == table[j];
          }
        }
      } else {
        var i :| FirstMatchAt(table[1..], s, i);
        assert table[1..][i] == table[i + 1];
        forall j | 0 <= j < i + 1 ensures !AnyKeywordOccurs(table[j].1, s) {
          if j > 0 {
            assert table[1..][j - 1] == table[j];
          }
        }
        assert FirstMatchAt(table, s, i + 1);
      }
    } else if table != [] {
      assert FirstMatchAt(table, s, 0);
    }
  }

  /** Classification ignores case: the description and its lower-cased form
      get the same category. */
  lemma CaseInsensitive(description: string, table: Table)
    ensures CategorizeTransaction(description, table) == CategorizeTransaction(Lower(description), table)
  {
    LowerIdempotent(description);
  }

  /** "метро" is a keyword of both Супермаркеты (first entry) and
      Общественный транспорт (sixth entry); any description containing it is
      classified as Супермаркеты. */
  lemma MetroIsSupermarket(description: string)
    requires Occurs("метро", Lower(description))
    ensures "метро" in CreateCategories()[0].1 && "метро" in CreateCategories()[5].1
    ensures CreateCategories()[0].0 == "Супермаркеты"
    ensures CategorizeTransaction(description, CreateCategories()) == "Супермаркеты"
  {
    var t := CreateCategories();
    assert t[0].1[5] == "метро";
    assert FirstMatchAt(t, Lower(description), 0);
  }

  /** The keyword "вкусВилл" holds an upper-case В, so it never occurs in a
      lower-cased description and can never decide a classification. */
  lemma MixedCaseKeywordNeverMatches(description: string)
    ensures "вкусВилл" in CreateCategories()[0].1
    ensures !Occurs("вкусВилл", Lower(description))
  {
    assert CreateCategories()[0].1[8] == "вкусВилл";
    var w := "вкусВилл";
    if Occurs(w, Lower(description)) {
      var i: nat :| OccursAt(w, Lower(description), i);
      OccurrenceChars(w, Lower(description), i, 4);
      LowerHasNoUpper(description);
      assert IsUpper(w[4]);
      assert false;
    }
  }

  /** The lower-cased text of the example description. */
  const PurchaseText: string := "покупка в пятерочке"

  /** The characters of `PurchaseText`. */
  const PurchaseChars: set<char> := {'п', 'о', 'к', 'у', 'а', ' ', 'в', 'я', 'т', 'е', 'р', 'ч'}

  lemma PurchaseTextAlphabet()
    ensures forall i :: 0 <= i < |PurchaseText| ==> PurchaseText[i] in PurchaseChars
  {
  }

  /** A character of `w` outside the alphabet of `s` rules out an occurrence. */
  lemma ForeignChar(w: string, s: string, alphabet: set<char>, k: nat)
    requires forall i :: 0 <= i < |s| ==> s[i] in alphabet
    requires k < |w| && w[k] !in alphabet
    ensures !Occurs(w, s)
  {
    if Occurs(w, s) {
      var i: nat :| OccursAt(w, s, i);
      OccurrenceChars(w, s, i, k);
      assert false;
    }
  }

  lemma NoKeywordOf(keywords: seq<string>, s: string)
    requires forall w :: w in keywords ==> !Occurs(w, s)
    ensures !AnyKeywordOccurs(keywords, s)
  {
  }

  /** Two Супермаркеты keywords whose every character occurs in the example
      text, yet which do not occur in it as a whole. */
  lemma SupermarketNearMissesInPurchaseText()
    ensures !Occurs("пятерочка", PurchaseText)
    ensures !Occurs("ярче", PurchaseText)
  {
    var s := PurchaseText;
    assert !Occurs("пятерочка", s) by {
      var w := "пятерочка";
      assert !ScanFrom(w, s, 0) by {
        assert !ScanFrom(w, s, 8); assert !ScanFrom(w, s, 4);
      }
      ScanFromSpec(w, s, 0);
    }
    assert !Occurs("ярче", s) by {
      var w := "ярче";
      assert !ScanFrom(w, s, 0) by {
        assert !ScanFrom(w, s, 12); assert !ScanFrom(w, s, 8); assert !ScanFrom(w, s, 4);
      }
      ScanFromSpec(w, s, 0);
    }
  }

  /** Likewise for "ппк" (Общественный транспорт) and "парк" (Развлечения). */
  lemma OtherNearMissesInPurchaseText()
    ensures !Occurs("ппк", PurchaseText)
    ensures !Occurs("парк", PurchaseText)
  {
    var s := PurchaseText;
    assert !Occurs("ппк", s) by {
      var w := "ппк";
      assert !ScanFrom(w, s, 0) by {
        assert !ScanFrom(w, s, 14); assert !ScanFrom(w, s, 10); assert !ScanFrom(w, s, 6); assert !ScanFrom(w, s, 2);
      }
      ScanFromSpec(w, s, 0);
    }
    assert !Occurs("парк", s) by {
      var w := "парк";
      assert !ScanFrom(w, s, 0) by {
        assert !ScanFrom(w, s, 12); assert !ScanFrom(w, s, 8); assert !ScanFrom(w, s, 4);
      }
      ScanFromSpec(w, s, 0);
    }
  }

  /** Matching is exact: "пятерочке" does not contain the keyword
      "пятерочка", so "Покупка в Пятерочке" falls through to "Другое". */
  lemma PurchaseInPyaterochkaIsOther()
    ensures CategorizeTransaction("Покупка в Пятерочке", CreateCategories()) == Other
  {
    assert Lower("Покупка в Пятерочке") == PurchaseText;
    PurchaseTextMatchesNoEntry();
  }

  /** No keyword of the table occurs in "покупка в пятерочке". */
  lemma PurchaseTextMatchesNoEntry()
    ensures NoMatch(CreateCategories(), PurchaseText)
  {
    var t := CreateCategories();
    forall j | 0 <= j < |t| ensures !AnyKeywordOccurs(t[j].1, PurchaseText) {
      if j == 0 {
        PurchaseTextMissesSupermarkets();
      } else if j == 1 {
        PurchaseTextMissesFastFood();
      } else if j == 2 {
        PurchaseTextMissesRestaurants();
      } else if j == 3 {
        PurchaseTextMissesTaxi();
      } else if j == 4 {
        PurchaseTextMissesCarSharing();
      } else if j == 5 {
        PurchaseTextMissesPublicTransport();
      } else if j == 6 {
        PurchaseTextMissesUtilities();
      } else if j == 7 {
        PurchaseTextMissesTelecom();
      } else if j == 8 {
        PurchaseTextMissesOnlineCinemas();
      } else if j == 9 {
        PurchaseTextMissesOnlineServices();
      } else if j == 10 {
        PurchaseTextMissesMarketplaces();
      } else if j == 11 {
        PurchaseTextMissesEntertainment();
      } else if j == 12 {
        PurchaseTextMissesElectronicsStores();
      } else if j == 13 {
        PurchaseTextMissesSalary();
      } else {
        PurchaseTextMissesTransfers();
      }
    }
  }

  /** The other Супермаркеты keywords each hold a character that the
      example text lacks (split in two halves). */
  lemma SupermarketFarMissesInPurchaseText1()
    ensures !Occurs("магнит", PurchaseText)
    ensures !Occurs("перекресток", PurchaseText)
    ensures !Occurs("лента", PurchaseText)
    ensures !Occurs("ашан", PurchaseText)
    ensures !Occurs("метро", PurchaseText)
  {
    PurchaseTextAlphabet();
    assert !Occurs("магнит", PurchaseText) by { ForeignChar("магнит", PurchaseText, PurchaseChars, 0); }
    assert !Occurs("перекресток", PurchaseText) by { ForeignChar("перекресток", PurchaseText, PurchaseChars, 7); }
    assert !Occurs("лента", PurchaseText) by { ForeignChar("лента", PurchaseText, PurchaseChars, 0); }
    assert !Occurs("ашан", PurchaseText) by { ForeignChar("ашан", PurchaseText, PurchaseChars, 1); }
    assert !Occurs("метро", PurchaseText) by { ForeignChar("метро", PurchaseText, PurchaseChars, 0); }
  }

  lemma SupermarketFarMissesInPurchaseText2()
    ensures !Occurs("окей", PurchaseText)
    ensures !Occurs("дикси", PurchaseText)
    ensures !Occurs("вкусВилл", PurchaseText)
    ensures !Occurs("билла", PurchaseText)
    ensures !Occurs("быстроном", PurchaseText)
  {
    PurchaseTextAlphabet();
    assert !Occurs("окей", PurchaseText) by { ForeignChar("окей", PurchaseText, PurchaseChars, 3); }
    assert !Occurs("дикси", PurchaseText) by { ForeignChar("дикси", PurchaseText, PurchaseChars, 0); }
    assert !Occurs("вкусВилл", PurchaseText) by { ForeignChar("вкусВилл", PurchaseText, PurchaseChars, 3); }
    assert !Occurs("билла", PurchaseText) by { ForeignChar("билла", PurchaseText, PurchaseChars, 0); }
    assert !Occurs("быстроном", PurchaseText) by { ForeignChar("быстроном", PurchaseText, PurchaseChars, 0); }
  }

  lemma PurchaseTextMissesSupermarkets()
    ensures !AnyKeywordOccurs(SupermarketsKeywords, PurchaseText)
  {
    SupermarketFarMissesInPurchaseText1();
    SupermarketFarMissesInPurchaseText2();
    SupermarketNearMissesInPurchaseText();
    NoKeywordOf(SupermarketsKeywords, PurchaseText);
  }

  lemma PurchaseTextMissesFastFood()
    ensures !AnyKeywordOccurs(FastFoodKeywords, PurchaseText)
  {
    PurchaseTextAlphabet();
    assert !Occurs("вкусно и точка", PurchaseText) by { ForeignChar("вкусно и точка", PurchaseText, PurchaseChars, 3); }
    assert !Occurs("rostic's", PurchaseText) by { ForeignChar("rostic's", PurchaseText, PurchaseChars, 0); }
    assert !Occurs("теремок", PurchaseText) by { ForeignChar("теремок", PurchaseText, PurchaseChars, 4); }
    assert !Occurs("академия кофе", PurchaseText) by { ForeignChar("академия кофе", PurchaseText, PurchaseChars, 3); }
    assert !Occurs("бургер кинг", PurchaseText) by { ForeignChar("бургер кинг", PurchaseText, PurchaseChars, 0); }
    assert !Occurs("хан буз", PurchaseText) by { ForeignChar("хан буз", PurchaseText, PurchaseChars, 0); }
    assert !Occurs("свиток", PurchaseText) by { ForeignChar("свиток", PurchaseText, PurchaseChars, 0); }
    NoKeywordOf(FastFoodKeywords, PurchaseText);
  }

  lemma PurchaseTextMissesRestaurants()
    ensures !AnyKeywordOccurs(RestaurantsKeywords, PurchaseText)
  {
    PurchaseTextAlphabet();
    assert !Occurs("якитория", PurchaseText) by { ForeignChar("якитория", PurchaseText, PurchaseChars, 2); }
    assert !Occurs("чайхона", PurchaseText) by { ForeignChar("чайхона", PurchaseText, PurchaseChars, 2); }
    assert !Occurs("шоколадница", PurchaseText) by { ForeignChar("шоколадница", PurchaseText, PurchaseChars, 0); }
    assert !Occurs("кофемания", PurchaseText) by { ForeignChar("кофемания", PurchaseText, PurchaseChars, 2); }
    NoKeywordOf(RestaurantsKeywords, PurchaseText);
  }

  lemma PurchaseTextMissesTaxi()
    ensures !AnyKeywordOccurs(TaxiKeywords, PurchaseText)
  {
    PurchaseTextAlphabet();
    assert !Occurs("яндекс.такси", PurchaseText) by { ForeignChar("яндекс.такси", PurchaseText, PurchaseChars, 1); }
    assert !Occurs("такси maxim", PurchaseText) by { ForeignChar("такси maxim", PurchaseText, PurchaseChars, 3); }
    assert !Occurs("uber", PurchaseText) by { ForeignChar("uber", PurchaseText, PurchaseChars, 0); }
    NoKeywordOf(TaxiKeywords, PurchaseText);
  }

  lemma PurchaseTextMissesCarSharing()
    ensures !AnyKeywordOccurs(CarSharingKeywords, PurchaseText)
  {
    PurchaseTextAlphabet();
    assert !Occurs("каршеринг", PurchaseText) by { ForeignChar("каршеринг", PurchaseText, PurchaseChars, 3); }
    assert !Occurs("ситимобил", PurchaseText) by { ForeignChar("ситимобил", PurchaseText, PurchaseChars, 0); }
    NoKeywordOf(CarSharingKeywords, PurchaseText);
  }

  lemma PurchaseTextMissesPublicTransport()
    ensures !AnyKeywordOccurs(PublicTransportKeywords, PurchaseText)
  {
    PurchaseTextAlphabet();
    assert !Occurs("метро", PurchaseText) by { ForeignChar("метро", PurchaseText, PurchaseChars, 0); }
    assert !Occurs("аэроэкспресс", PurchaseText) by { ForeignChar("аэроэкспресс", PurchaseText, PurchaseChars, 1); }
    assert !Occurs("мцд", PurchaseText) by { ForeignChar("мцд", PurchaseText, PurchaseChars, 0); }
    OtherNearMissesInPurchaseText();
    NoKeywordOf(PublicTransportKeywords, PurchaseText);
  }

  lemma PurchaseTextMissesUtilities()
    ensures !AnyKeywordOccurs(UtilitiesKeywords, PurchaseText)
  {
    PurchaseTextAlphabet();
    assert !Occurs("новосибэнергосбыт", PurchaseText) by { ForeignChar("новосибэнергосбыт", PurchaseText, PurchaseChars, 0); }
    assert !Occurs("моэк", PurchaseText) by { ForeignChar("моэк", PurchaseText, PurchaseChars, 0); }
    assert !Occurs("ростелеком", PurchaseText) by { ForeignChar("ростелеком", PurchaseText, PurchaseChars, 2); }
    assert !Occurs("мгтс", PurchaseText) by { ForeignChar("мгтс", PurchaseText, PurchaseChars, 0); }
    assert !Occurs("дом.ru", PurchaseText) by { ForeignChar("дом.ru", PurchaseText, PurchaseChars, 0); }
    assert !Occurs("новосибводоканал", PurchaseText) by { ForeignChar("новосибводоканал", PurchaseText, PurchaseChars, 0); }
    NoKeywordOf(UtilitiesKeywords, PurchaseText);
  }

  lemma PurchaseTextMissesTelecom()
    ensures !AnyKeywordOccurs(TelecomKeywords, PurchaseText)
  {
    PurchaseTextAlphabet();
    assert !Occurs("мтс", PurchaseText) by { ForeignChar("мтс", PurchaseText, PurchaseChars, 0); }
    assert !Occurs("tele2", PurchaseText) by { ForeignChar("tele2", PurchaseText, PurchaseChars, 0); }
    assert !Occurs("мегафон", PurchaseText) by { ForeignChar("мегафон", PurchaseText, PurchaseChars, 0); }
    assert !Occurs("билайн", PurchaseText) by { ForeignChar("билайн", PurchaseText, PurchaseChars, 0); }
    NoKeywordOf(TelecomKeywords, PurchaseText);
  }

  lemma PurchaseTextMissesOnlineCinemas()
    ensures !AnyKeywordOccurs(OnlineCinemasKeywords, PurchaseText)
  {
    PurchaseTextAlphabet();
    assert !Occurs("ivi", PurchaseText) by { ForeignChar("ivi", PurchaseText, PurchaseChars, 0); }
    assert !Occurs("oko", PurchaseText) by { ForeignChar("oko", PurchaseText, PurchaseChars, 0); }
    assert !Occurs("kinopub", PurchaseText) by { ForeignChar("kinopub", PurchaseText, PurchaseChars, 0); }
    NoKeywordOf(OnlineCinemasKeywords, PurchaseText);
  }

  lemma PurchaseTextMissesOnlineServices()
    ensures !AnyKeywordOccurs(OnlineServicesKeywords, PurchaseText)
  {
    PurchaseTextAlphabet();
    assert !Occurs("яндекс.плюс", PurchaseText) by { ForeignChar("яндекс.плюс", PurchaseText, PurchaseChars, 1); }
    assert !Occurs("vk", PurchaseText) by { ForeignChar("vk", PurchaseText, PurchaseChars, 0); }
    assert !Occurs("steam", PurchaseText) by { ForeignChar("steam", PurchaseText, PurchaseChars, 0); }
    assert !Occurs("youtube premium", PurchaseText) by { ForeignChar("youtube premium", PurchaseText, PurchaseChars, 0); }
    assert !Occurs("apple music", PurchaseText) by { ForeignChar("apple music", PurchaseText, PurchaseChars, 0); }
    assert !Occurs("spotify", PurchaseText) by { ForeignChar("spotify", PurchaseText, PurchaseChars, 0); }
    NoKeywordOf(OnlineServicesKeywords, PurchaseText);
  }

  lemma PurchaseTextMissesMarketplaces()
    ensures !AnyKeywordOccurs(MarketplacesKeywords, PurchaseText)
  {
    PurchaseTextAlphabet();
    assert !Occurs("ozon", PurchaseText) by { ForeignChar("ozon", PurchaseText, PurchaseChars, 0); }
    assert !Occurs("wildberries", PurchaseText) by { ForeignChar("wildberries", PurchaseText, PurchaseChars, 0); }
    assert !Occurs("яндекс.маркет", PurchaseText) by { ForeignChar("яндекс.маркет", PurchaseText, PurchaseChars, 1); }
    NoKeywordOf(MarketplacesKeywords, PurchaseText);
  }

  lemma PurchaseTextMissesEntertainment()
    ensures !AnyKeywordOccurs(EntertainmentKeywords, PurchaseText)
  {
    PurchaseTextAlphabet();
    assert !Occurs("кинотеатр", PurchaseText) by { ForeignChar("кинотеатр", PurchaseText, PurchaseChars, 1); }
    assert !Occurs("арена", PurchaseText) by { ForeignChar("арена", PurchaseText, PurchaseChars, 3); }
    assert !Occurs("цирк", PurchaseText) by { ForeignChar("цирк", PurchaseText, PurchaseChars, 0); }
    assert !Occurs("зоопарк", PurchaseText) by { ForeignChar("зоопарк", PurchaseText, PurchaseChars, 0); }
    OtherNearMissesInPurchaseText();
    NoKeywordOf(EntertainmentKeywords, PurchaseText);
  }

  lemma PurchaseTextMissesElectronicsStores()
    ensures !AnyKeywordOccurs(ElectronicsStoresKeywords, PurchaseText)
  {
    PurchaseTextAlphabet();
    assert !Occurs("м.видео", PurchaseText) by { ForeignChar("м.видео", PurchaseText, PurchaseChars, 0); }
    assert !Occurs("эльдорадо", PurchaseText) by { ForeignChar("эльдорадо", PurchaseText, PurchaseChars, 0); }
    assert !Occurs("связной", PurchaseText) by { ForeignChar("связной", PurchaseText, PurchaseChars, 0); }
    assert !Occurs("евросеть", PurchaseText) by { ForeignChar("евросеть", PurchaseText, PurchaseChars, 4); }
    assert !Occurs("dns", PurchaseText) by { ForeignChar("dns", PurchaseText, PurchaseChars, 0); }
    NoKeywordOf(ElectronicsStoresKeywords, PurchaseText);
  }

  lemma PurchaseTextMissesSalary()
    ensures !AnyKeywordOccurs(SalaryKeywords, PurchaseText)
  {
    PurchaseTextAlphabet();
    assert !Occurs("зарплата", PurchaseText) by { ForeignChar("зарплата", PurchaseText, PurchaseChars, 0); }
    NoKeywordOf(SalaryKeywords, PurchaseText);
  }

  lemma PurchaseTextMissesTransfers()
    ensures !AnyKeywordOccurs(TransfersKeywords, PurchaseText)
  {
    PurchaseTextAlphabet();
    assert !Occurs("перевод", PurchaseText) by { ForeignChar("перевод", PurchaseText, PurchaseChars, 6); }
    NoKeywordOf(TransfersKeywords, PurchaseText);
  }
}

/**
 * Two concrete views of the catalog of constants.tsx: the "Electronics"
 * category with an empty query shows exactly the first two products, and
 * the query "organic" with "All" shows only product 4. The search part is
 * proved piece by piece: each piece of a name or description lacks one of
 * the letters of "organic" in both cases, and no occurrence can straddle
 * two pieces because each piece but the last ends in a space.
 */
module FilterScenarios {
  import opened Types
  import opened Text
  import opened Sequences
  import Constants
  import Catalog

  /** Filtering a sequence of six elements, one element at a time. */
  lemma FilterOfSix<T(!new)>(keep: T -> bool, a: T, b: T, c: T, d: T, e: T, f: T)
    ensures Filter(keep, [a, b, c, d, e, f])
      == KeepIf(keep, a) + (KeepIf(keep, b) + (KeepIf(keep, c) + (KeepIf(keep, d) + (KeepIf(keep, e) + KeepIf(keep, f)))))
  {
    var s1 := [b, c, d, e, f];
    var s2 := s1[1..];
    var s3 := s2[1..];
    var s4 := s3[1..];
    var s5 := s4[1..];
    assert [a, b, c, d, e, f] == [a] + s1;
    assert s1 == [b] + s2 && s2 == [c] + s3 && s3 == [d] + s4 && s4 == [e] + s5 && s5 == [f] + [];
    FilterCons(keep, a, s1);
    FilterCons(keep, b, s2);
    FilterCons(keep, c, s3);
    FilterCons(keep, d, s4);
    FilterCons(keep, e, s5);
    FilterCons(keep, f, []);
  }

  /** Only the first two products are in Electronics, so they are all that category shows. */
  lemma ElectronicsScenario()
    ensures Catalog.FilteredProducts("Electronics", "") == [Constants.Headphones, Constants.SmartWatch]
  {
    var keep := (p: Product) => p.category == "Electronics";
    Catalog.FilterCategoryEmptyQuery(Constants.Products, "Electronics");
    FilterOfSix(keep, Constants.Headphones, Constants.SmartWatch, Constants.Tote,
      Constants.EssentialKit, Constants.CoffeeTable, Constants.SkincareSet);
  }

  // ---------------------------------------------------------------------
  // "organic"

  lemma OrganicIsLowerCase()
    ensures ToLower("organic") == "organic"
  {
  }

  /** Product 4's name holds "Organic", which lower-cases to the query. */
  lemma EssentialKitMatchesOrganic()
    ensures Catalog.MatchesSearch(Constants.EssentialKit, "organic")
  {
    OrganicIsLowerCase();
    ToLowerAppend("Zenith " + "Organic", " Essential Kit");
    ToLowerAppend("Zenith ", "Organic");
    assert ToLower("Organic") == "organic";
    IncludesPiece(ToLower("Zenith "), ToLower("Organic"), ToLower(" Essential Kit"));
  }

  lemma HeadphonesNamePiece1LacksOrganic()
    ensures !Includes(ToLower("Aether "), "organic")
  {
    LowerLacksLetter("Aether ", "organic", 'o');
  }

  lemma HeadphonesNamePiece2LacksOrganic()
    ensures !Includes(ToLower("Noise-Cancelling "), "organic")
  {
    LowerLacksLetter("Noise-Cancelling ", "organic", 'r');
  }

  lemma HeadphonesNamePiece3LacksOrganic()
    ensures !Includes(ToLower("Headphones"), "organic")
  {
    LowerLacksLetter("Headphones", "organic", 'r');
  }

  lemma HeadphonesNameLacksOrganic()
    ensures !Includes(ToLower(Constants.Headphones.name), "organic")
  {
    HeadphonesNamePiece1LacksOrganic();
    HeadphonesNamePiece2LacksOrganic();
    HeadphonesNamePiece3LacksOrganic();
    LowerNoOccurrenceAcross("organic", "Aether ", "Noise-Cancelling ");
    LowerNoOccurrenceAcross("organic", "Aether " + "Noise-Cancelling ", "Headphones");
  }

  lemma HeadphonesDescriptionPiece1LacksOrganic()
    ensures !Includes(ToLower("Experience studio-quality "), "organic")
  {
    LowerLacksLetter("Experience studio-quality ", "organic", 'g');
  }

  lemma HeadphonesDescriptionPiece2LacksOrganic()
    ensures !Includes(ToLower("sound with our flagship "), "organic")
  {
    LowerLacksLetter("sound with our flagship ", "organic", 'c');
  }

  lemma HeadphonesDescriptionPiece3LacksOrganic()
    ensures !Includes(ToLower("hybrid active "), "organic")
  {
    LowerLacksLetter("hybrid active ", "organic", 'o');
  }

  lemma HeadphonesDescriptionPiece4LacksOrganic()
    ensures !Includes(ToLower("noise-cancelling technology."), "organic")
  {
    LowerLacksLetter("noise-cancelling technology.", "organic", 'r');
  }

  lemma HeadphonesDescriptionLacksOrganic()
    ensures !Includes(ToLower(Constants.Headphones.description), "organic")
  {
    HeadphonesDescriptionPiece1LacksOrganic();
    HeadphonesDescriptionPiece2LacksOrganic();
    HeadphonesDescriptionPiece3LacksOrganic();
    HeadphonesDescriptionPiece4LacksOrganic();
    LowerNoOccurrenceAcross("organic", "Experience studio-quality ", "sound with our flagship ");
    LowerNoOccurrenceAcross("organic", "Experience studio-quality " + "sound with our flagship ", "hybrid active ");
    LowerNoOccurrenceAcross("organic", "Experience studio-quality " + "sound with our flagship " + "hybrid active ", "noise-cancelling technology.");
  }

  lemma SmartWatchNameLacksOrganic()
    ensures !Includes(ToLower(Constants.SmartWatch.name), "organic")
  {
    LowerLacksLetter("Lumina Smart Watch Pro", "organic", 'g');
  }

  lemma SmartWatchDescriptionPiece1LacksOrganic()
    ensures !Includes(ToLower("Stay connected and track your "), "organic")
  {
    LowerLacksLetter("Stay connected and track your ", "organic", 'g');
  }

  lemma SmartWatchDescriptionPiece2LacksOrganic()
    ensures !Includes(ToLower("health metrics with precision "), "organic")
  {
    LowerLacksLetter("health metrics with precision ", "organic", 'g');
  }

  lemma SmartWatchDescriptionPiece3LacksOrganic()
    ensures !Includes(ToLower("using the latest Lumina OS."), "organic")
  {
    LowerLacksLetter("using the latest Lumina OS.", "organic", 'r');
  }

  lemma SmartWatchDescriptionLacksOrganic()
    ensures !Includes(ToLower(Constants.SmartWatch.description), "organic")
  {
    SmartWatchDescriptionPiece1LacksOrganic();
    SmartWatchDescriptionPiece2LacksOrganic();
    SmartWatchDescriptionPiece3LacksOrganic();
    LowerNoOccurrenceAcross("organic", "Stay connected and track your ", "health metrics with precision ");
    LowerNoOccurrenceAcross("organic", "Stay connected and track your " + "health metrics with precision ", "using the latest Lumina OS.");
  }

  lemma ToteNameLacksOrganic()
    ensures !Includes(ToLower(Constants.Tote.name), "organic")
  {
    LowerLacksLetter("Onyx Silk Minimalist Tote", "organic", 'r');
  }

  lemma ToteDescriptionPiece1LacksOrganic()
    ensures !Includes(ToLower("Handcrafted premium leather "), "organic")
  {
    LowerLacksLetter("Handcrafted premium leather ", "organic", 'o');
  }

  lemma ToteDescriptionPiece2LacksOrganic()
    ensures !Includes(ToLower("tote designed for the modern "), "organic")
  {
    LowerLacksLetter("tote designed for the modern ", "organic", 'a');
  }

  lemma ToteDescriptionPiece3LacksOrganic()
    ensures !Includes(ToLower("urban professional."), "organic")
  {
    LowerLacksLetter("urban professional.", "organic", 'g');
  }

  lemma ToteDescriptionLacksOrganic()
    ensures !Includes(ToLower(Constants.Tote.description), "organic")
  {
    ToteDescriptionPiece1LacksOrganic();
    ToteDescriptionPiece2LacksOrganic();
    ToteDescriptionPiece3LacksOrganic();
    LowerNoOccurrenceAcross("organic", "Handcrafted premium leather ", "tote designed for the modern ");
    LowerNoOccurrenceAcross("organic", "Handcrafted premium leather " + "tote designed for the modern ", "urban professional.");
  }

  lemma CoffeeTableNameLacksOrganic()
    ensures !Includes(ToLower(Constants.CoffeeTable.name), "organic")
  {
    LowerLacksLetter("Nordic Oak Coffee Table", "organic", 'g');
  }

  lemma CoffeeTableDescriptionPiece1LacksOrganic()
    ensures !Includes(ToLower("Sustainably sourced solid oak "), "organic")
  {
    LowerLacksLetter("Sustainably sourced solid oak ", "organic", 'g');
  }

  lemma CoffeeTableDescriptionPiece2LacksOrganic()
    ensures !Includes(ToLower("table with a minimalist "), "organic")
  {
    LowerLacksLetter("table with a minimalist ", "organic", 'o');
  }

  lemma CoffeeTableDescriptionPiece3LacksOrganic()
    ensures !Includes(ToLower("Scandinavian design "), "organic")
  {
    LowerLacksLetter("Scandinavian design ", "organic", 'o');
  }

  lemma CoffeeTableDescriptionPiece4LacksOrganic()
    ensures !Includes(ToLower("aesthetic."), "organic")
  {
    LowerLacksLetter("aesthetic.", "organic", 'o');
  }

  lemma CoffeeTableDescriptionLacksOrganic()
    ensures !Includes(ToLower(Constants.CoffeeTable.description), "organic")
  {
    CoffeeTableDescriptionPiece1LacksOrganic();
    CoffeeTableDescriptionPiece2LacksOrganic();
    CoffeeTableDescriptionPiece3LacksOrganic();
    CoffeeTableDescriptionPiece4LacksOrganic();
    LowerNoOccurrenceAcross("organic", "Sustainably sourced solid oak ", "table with a minimalist ");
    LowerNoOccurrenceAcross("organic", "Sustainably sourced solid oak " + "table with a minimalist ", "Scandinavian design ");
    LowerNoOccurrenceAcross("organic", "Sustainably sourced solid oak " + "table with a minimalist " + "Scandinavian design ", "aesthetic.");
  }

  lemma SkincareSetNameLacksOrganic()
    ensures !Includes(ToLower(Constants.SkincareSet.name), "organic")
  {
    LowerLacksLetter("Velvet Cloud Skincare Set", "organic", 'g');
  }

  lemma SkincareSetDescriptionPiece1LacksOrganic()
    ensures !Includes(ToLower("A complete 5-step hydration "), "organic")
  {
    LowerLacksLetter("A complete 5-step hydration ", "organic", 'g');
  }

  lemma SkincareSetDescriptionPiece2LacksOrganic()
    ensures !Includes(ToLower("system for glowing, radiant "), "organic")
  {
    LowerLacksLetter("system for glowing, radiant ", "organic", 'c');
  }

  lemma SkincareSetDescriptionPiece3LacksOrganic()
    ensures !Includes(ToLower("skin throughout the day."), "organic")
  {
    LowerLacksLetter("skin throughout the day.", "organic", 'c');
  }

  lemma SkincareSetDescriptionLacksOrganic()
    ensures !Includes(ToLower(Constants.SkincareSet.description), "organic")
  {
    SkincareSetDescriptionPiece1LacksOrganic();
    SkincareSetDescriptionPiece2LacksOrganic();
    SkincareSetDescriptionPiece3LacksOrganic();
    LowerNoOccurrenceAcross("organic", "A complete 5-step hydration ", "system for glowing, radiant ");
    LowerNoOccurrenceAcross("organic", "A complete 5-step hydration " + "system for glowing, radiant ", "skin throughout the day.");
  }

  lemma HeadphonesMissesOrganic()
    ensures !Catalog.MatchesSearch(Constants.Headphones, "organic")
  {
    OrganicIsLowerCase();
    HeadphonesNameLacksOrganic();
    HeadphonesDescriptionLacksOrganic();
  }

  lemma SmartWatchMissesOrganic()
    ensures !Catalog.MatchesSearch(Constants.SmartWatch, "organic")
  {
    OrganicIsLowerCase();
    SmartWatchNameLacksOrganic();
    SmartWatchDescriptionLacksOrganic();
  }

  lemma ToteMissesOrganic()
    ensures !Catalog.MatchesSearch(Constants.Tote, "organic")
  {
    OrganicIsLowerCase();
    ToteNameLacksOrganic();
    ToteDescriptionLacksOrganic();
  }

  lemma CoffeeTableMissesOrganic()
    ensures !Catalog.MatchesSearch(Constants.CoffeeTable, "organic")
  {
    OrganicIsLowerCase();
    CoffeeTableNameLacksOrganic();
    CoffeeTableDescriptionLacksOrganic();
  }

  lemma SkincareSetMissesOrganic()
    ensures !Catalog.MatchesSearch(Constants.SkincareSet, "organic")
  {
    OrganicIsLowerCase();
    SkincareSetNameLacksOrganic();
    SkincareSetDescriptionLacksOrganic();
  }

  /** Precisely one product is found by "organic". */
  lemma OnlyEssentialKitMatchesOrganic()
    ensures forall k :: 0 <= k < |Constants.Products| ==>
      (Catalog.MatchesSearch(Constants.Products[k], "organic") <==> k == 3)
  {
    EssentialKitMatchesOrganic();
    HeadphonesMissesOrganic();
    SmartWatchMissesOrganic();
    ToteMissesOrganic();
    CoffeeTableMissesOrganic();
    SkincareSetMissesOrganic();
  }

  /** Searching "organic" across all categories shows product 4 alone. */
  lemma OrganicScenario()
    ensures Catalog.FilteredProducts("All", "organic") == [Constants.EssentialKit]
  {
    var keep := (p: Product) => Catalog.IsVisible(p, "All", "organic");
    EssentialKitMatchesOrganic();
    HeadphonesMissesOrganic();
    SmartWatchMissesOrganic();
    ToteMissesOrganic();
    CoffeeTableMissesOrganic();
    SkincareSetMissesOrganic();
    FilterOfSix(keep, Constants.Headphones, Constants.SmartWatch, Constants.Tote,
      Constants.EssentialKit, Constants.CoffeeTable, Constants.SkincareSet);
  }
}

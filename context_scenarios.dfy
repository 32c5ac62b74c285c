/**
 * The catalog context of geminiService.ts built from the catalog of
 * constants.tsx: no name, category or description holds a line break, so
 * the context has exactly one line per product. Each long text is checked
 * literal piece by literal piece.
 */
module ContextScenarios {
  import opened Text
  import Constants
  import GeminiService

  /** A string none of whose characters is a line break holds no line break. */
  lemma NoLineBreak(s: string)
    requires forall k | 0 <= k < |s| :: s[k] != '\n'
    ensures '\n' !in s
  {
  }

  lemma HeadphonesNameSingleLine()
    ensures '\n' !in "Aether " + "Noise-Cancelling " + "Headphones"
  {
    NoLineBreak("Aether ");
    NoLineBreak("Noise-Cancelling ");
    NoLineBreak("Headphones");
    GeminiService.NoLineBreakInConcat("Aether ", "Noise-Cancelling ");
    GeminiService.NoLineBreakInConcat("Aether " + "Noise-Cancelling ", "Headphones");
  }

  lemma HeadphonesDescriptionSingleLine()
    ensures '\n' !in "Experience studio-quality " + "sound with our flagship " + "hybrid active " + "noise-cancelling technology."
  {
    NoLineBreak("Experience studio-quality ");
    NoLineBreak("sound with our flagship ");
    NoLineBreak("hybrid active ");
    NoLineBreak("noise-cancelling technology.");
    GeminiService.NoLineBreakInConcat("Experience studio-quality ", "sound with our flagship ");
    GeminiService.NoLineBreakInConcat("Experience studio-quality " + "sound with our flagship ", "hybrid active ");
    GeminiService.NoLineBreakInConcat("Experience studio-quality " + "sound with our flagship " + "hybrid active ", "noise-cancelling technology.");
  }

  lemma HeadphonesSingleLine()
    ensures GeminiService.SingleLine(Constants.Headphones)
  {
    HeadphonesNameSingleLine();
    NoLineBreak("Electronics");
    HeadphonesDescriptionSingleLine();
  }

  lemma SmartWatchNameSingleLine()
    ensures '\n' !in "Lumina Smart Watch Pro"
  {
    NoLineBreak("Lumina Smart Watch Pro");
  }

  lemma SmartWatchDescriptionSingleLine()
    ensures '\n' !in "Stay connected and track your " + "health metrics with precision " + "using the latest Lumina OS."
  {
    NoLineBreak("Stay connected and track your ");
    NoLineBreak("health metrics with precision ");
    NoLineBreak("using the latest Lumina OS.");
    GeminiService.NoLineBreakInConcat("Stay connected and track your ", "health metrics with precision ");
    GeminiService.NoLineBreakInConcat("Stay connected and track your " + "health metrics with precision ", "using the latest Lumina OS.");
  }

  lemma SmartWatchSingleLine()
    ensures GeminiService.SingleLine(Constants.SmartWatch)
  {
    SmartWatchNameSingleLine();
    NoLineBreak("Electronics");
    SmartWatchDescriptionSingleLine();
  }

  lemma ToteNameSingleLine()
    ensures '\n' !in "Onyx Silk Minimalist Tote"
  {
    NoLineBreak("Onyx Silk Minimalist Tote");
  }

  lemma ToteDescriptionSingleLine()
    ensures '\n' !in "Handcrafted premium leather " + "tote designed for the modern " + "urban professional."
  {
    NoLineBreak("Handcrafted premium leather ");
    NoLineBreak("tote designed for the modern ");
    NoLineBreak("urban professional.");
    GeminiService.NoLineBreakInConcat("Handcrafted premium leather ", "tote designed for the modern ");
    GeminiService.NoLineBreakInConcat("Handcrafted premium leather " + "tote designed for the modern ", "urban professional.");
  }

  lemma ToteSingleLine()
    ensures GeminiService.SingleLine(Constants.Tote)
  {
    ToteNameSingleLine();
    NoLineBreak("Fashion");
    ToteDescriptionSingleLine();
  }

  lemma EssentialKitNameSingleLine()
    ensures '\n' !in "Zenith " + "Organic" + " Essential Kit"
  {
    NoLineBreak("Zenith ");
    NoLineBreak("Organic");
    NoLineBreak(" Essential Kit");
    GeminiService.NoLineBreakInConcat("Zenith ", "Organic");
    GeminiService.NoLineBreakInConcat("Zenith " + "Organic", " Essential Kit");
  }

  lemma EssentialKitDescriptionSingleLine()
    ensures '\n' !in "A curated set of 100% organic " + "essential oils for deep " + "relaxation and focus."
  {
    NoLineBreak("A curated set of 100% organic ");
    NoLineBreak("essential oils for deep ");
    NoLineBreak("relaxation and focus.");
    GeminiService.NoLineBreakInConcat("A curated set of 100% organic ", "essential oils for deep ");
    GeminiService.NoLineBreakInConcat("A curated set of 100% organic " + "essential oils for deep ", "relaxation and focus.");
  }

  lemma EssentialKitSingleLine()
    ensures GeminiService.SingleLine(Constants.EssentialKit)
  {
    EssentialKitNameSingleLine();
    NoLineBreak("Wellness");
    EssentialKitDescriptionSingleLine();
  }

  lemma CoffeeTableNameSingleLine()
    ensures '\n' !in "Nordic Oak Coffee Table"
  {
    NoLineBreak("Nordic Oak Coffee Table");
  }

  lemma CoffeeTableDescriptionSingleLine()
    ensures '\n' !in "Sustainably sourced solid oak " + "table with a minimalist " + "Scandinavian design " + "aesthetic."
  {
    NoLineBreak("Sustainably sourced solid oak ");
    NoLineBreak("table with a minimalist ");
    NoLineBreak("Scandinavian design ");
    NoLineBreak("aesthetic.");
    GeminiService.NoLineBreakInConcat("Sustainably sourced solid oak ", "table with a minimalist ");
    GeminiService.NoLineBreakInConcat("Sustainably sourced solid oak " + "table with a minimalist ", "Scandinavian design ");
    GeminiService.NoLineBreakInConcat("Sustainably sourced solid oak " + "table with a minimalist " + "Scandinavian design ", "aesthetic.");
  }

  lemma CoffeeTableSingleLine()
    ensures GeminiService.SingleLine(Constants.CoffeeTable)
  {
    CoffeeTableNameSingleLine();
    NoLineBreak("Home");
    CoffeeTableDescriptionSingleLine();
  }

  lemma SkincareSetNameSingleLine()
    ensures '\n' !in "Velvet Cloud Skincare Set"
  {
    NoLineBreak("Velvet Cloud Skincare Set");
  }

  lemma SkincareSetDescriptionSingleLine()
    ensures '\n' !in "A complete 5-step hydration " + "system for glowing, radiant " + "skin throughout the day."
  {
    NoLineBreak("A complete 5-step hydration ");
    NoLineBreak("system for glowing, radiant ");
    NoLineBreak("skin throughout the day.");
    GeminiService.NoLineBreakInConcat("A complete 5-step hydration ", "system for glowing, radiant ");
    GeminiService.NoLineBreakInConcat("A complete 5-step hydration " + "system for glowing, radiant ", "skin throughout the day.");
  }

  lemma SkincareSetSingleLine()
    ensures GeminiService.SingleLine(Constants.SkincareSet)
  {
    SkincareSetNameSingleLine();
    NoLineBreak("Beauty");
    SkincareSetDescriptionSingleLine();
  }

  /** The catalog context of `PRODUCTS` splits back into one line per product, in catalog order. */
  lemma CatalogContextLines()
    ensures Split(GeminiService.ProductsContext(Constants.Products), '\n') == GeminiService.ProductLines(Constants.Products)
    ensures |GeminiService.ProductLines(Constants.Products)| == 6
  {
    HeadphonesSingleLine();
    SmartWatchSingleLine();
    ToteSingleLine();
    EssentialKitSingleLine();
    CoffeeTableSingleLine();
    SkincareSetSingleLine();
    GeminiService.ProductsContextLines(Constants.Products);
  }
}

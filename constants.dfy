/**
 * The fixed catalog (constants.tsx): six products and the category list the
 * filter bar offers. Long strings are written as concatenations of shorter
 * literals; the value is the same string.
 */
module Constants {
  import opened Types

  /** Every product image is an Unsplash photo with the same query string. */
  function UnsplashImage(photo: string): string
  {
    "https://images.unsplash.com/" + photo + "?auto=format&fit=crop&w=800&q=80"
  }

  const Headphones := Product(
    "1",
    "Aether " + "Noise-Cancelling " + "Headphones",
    34999,
    "Electronics",
    UnsplashImage("photo-1505740420928-5e560c06d30e"),
    "Experience studio-quality " + "sound with our flagship " + "hybrid active " + "noise-cancelling technology.")

  const SmartWatch := Product(
    "2",
    "Lumina Smart Watch Pro",
    29900,
    "Electronics",
    UnsplashImage("photo-1523275335684-37898b6baf30"),
    "Stay connected and track your " + "health metrics with precision " + "using the latest Lumina OS.")

  const Tote := Product(
    "3",
    "Onyx Silk Minimalist Tote",
    18500,
    "Fashion",
    UnsplashImage("photo-1584917033904-491a34d2aed1"),
    "Handcrafted premium leather " + "tote designed for the modern " + "urban professional.")

  const EssentialKit := Product(
    "4",
    "Zenith " + "Organic" + " Essential Kit",
    7500,
    "Wellness",
    UnsplashImage("photo-1540555700478-4be289fbecef"),
    "A curated set of 100% organic " + "essential oils for deep " + "relaxation and focus.")

  const CoffeeTable := Product(
    "5",
    "Nordic Oak Coffee Table",
    45000,
    "Home",
    UnsplashImage("photo-1533090161767-e6ffed986c88"),
    "Sustainably sourced solid oak " + "table with a minimalist " + "Scandinavian design " + "aesthetic.")

  const SkincareSet := Product(
    "6",
    "Velvet Cloud Skincare Set",
    12000,
    "Beauty",
    UnsplashImage("photo-1556227702-d1e4e7b5c232"),
    "A complete 5-step hydration " + "system for glowing, radiant " + "skin throughout the day.")

  /** `PRODUCTS`, in catalog order. */
  const Products: seq<Product> := [Headphones, SmartWatch, Tote, EssentialKit, CoffeeTable, SkincareSet]

  /** `CATEGORIES`: the pseudo-category "All" followed by the five real ones. */
  const Categories: seq<string> := ["All", "Electronics", "Fashion", "Home", "Beauty", "Wellness"]

  /** The catalog has six products with pairwise distinct ids "1" to "6". */
  lemma CatalogIds()
    ensures |Products| == 6
    ensures forall i :: 0 <= i < |Products| ==> Products[i].id == [('1' as int + i) as char]
    ensures forall i, j :: 0 <= i < j < |Products| ==> Products[i].id != Products[j].id
  {
  }

  /** Every product belongs to one of the real categories, never to "All". */
  lemma CatalogCategories()
    ensures forall p :: p in Products ==> p.category in Categories[1..]
    ensures forall p :: p in Products ==> p.category != "All"
  {
  }

  /** Every price is a positive number of cents. */
  lemma CatalogPrices()
    ensures forall p :: p in Products ==> p.price > 0
  {
  }

  /** The Electronics products are the first two. */
  lemma ElectronicsProducts()
    ensures forall i :: 0 <= i < |Products| ==> (Products[i].category == "Electronics" <==> i < 2)
  {
  }
}

/**
 * The six-product tea catalog. The products page, the showcase and the
 * recommendation panel each declare a copy of it; the copies hold the same
 * records, so the model declares it once.
 *
 * Long descriptions are written as concatenations of short literals: the
 * value is the source's text, and the short pieces keep the verifier's
 * character-by-character reasoning about them cheap.
 */
module Catalog {
  import opened Optional
  import opened Text
  import opened Seqs

  datatype Product = Product(
    id: int,
    name: string,
    description: string,
    price: string,
    originalPrice: string,
    image: string,
    benefits: seq<string>,
    rating: real,
    reviews: nat,
    brewingTime: string,
    temperature: string,
    ingredients: seq<string>,
    origin: string,
    inStock: bool,
    tags: seq<string>)

  const TranquilEveningBlend := Product(
    1, "Tranquil Evening Blend",
    "Chamomile, lavender, " + "and lemon balm " + "for peaceful nights",
    "$24.99", "$29.99", "/elegant-tea-package-with-chamomile-flowers.png",
    ["Promotes relaxation", "Improves sleep quality", "Reduces anxiety"],
    4.8, 127, "5-7 min", "85°C",
    ["Chamomile", "Lavender", "Lemon Balm", "Passionflower"],
    "Organic, Fair Trade", true,
    ["Sleep", "Relaxation", "Evening", "Organic"])

  const MorningClarityTea := Product(
    2, "Morning Clarity Tea",
    "Ginkgo, green tea, " + "and mint for " + "mental focus",
    "$28.99", "$34.99", "/premium-green-tea-package-with-mint-leaves.png",
    ["Enhances focus", "Boosts energy", "Supports memory"],
    4.9, 203, "3-5 min", "80°C",
    ["Green Tea", "Ginkgo Biloba", "Peppermint", "Ginseng"],
    "Premium, Single Origin", true,
    ["Focus", "Energy", "Morning", "Premium"])

  const StressReliefBlend := Product(
    3, "Stress Relief Blend",
    "Ashwagandha, holy " + "basil, and rose " + "petals for calm",
    "$32.99", "$39.99", "/herbal-tea-package-with-rose-petals-and-herbs.png",
    ["Reduces stress", "Balances mood", "Promotes calm"],
    4.7, 89, "6-8 min", "90°C",
    ["Ashwagandha", "Holy Basil", "Rose Petals", "Chamomile"],
    "Ayurvedic, Traditional", false,
    ["Stress Relief", "Calm", "Ayurvedic", "Traditional"])

  const DigestiveHarmony := Product(
    4, "Digestive Harmony",
    "Ginger, fennel, " + "and peppermint " + "for gut wellness",
    "$26.99", "$31.99", "/digestive-tea-package-with-ginger-and-mint.png",
    ["Aids digestion", "Soothes stomach", "Reduces bloating"],
    4.6, 156, "4-6 min", "85°C",
    ["Ginger", "Fennel", "Peppermint", "Lemon"],
    "Natural, Herbal", true,
    ["Digestion", "Wellness", "Herbal", "Natural"])

  const ImmuneBoostTea := Product(
    5, "Immune Boost Tea",
    "Elderberry, " + "echinacea, and " + "ginger for " + "natural defense",
    "$29.99", "$35.99", "/immune-boost-tea-package-with-elderberry.png",
    ["Boosts immunity", "Antioxidant rich", "Natural defense"],
    4.8, 134, "5-7 min", "90°C",
    ["Elderberry", "Echinacea", "Ginger", "Honey"],
    "Wildcrafted, Organic", true,
    ["Immunity", "Wellness", "Organic", "Wildcrafted"])

  const DeepSleepBlend := Product(
    6, "Deep Sleep Blend",
    "Valerian root, " + "passionflower, " + "and chamomile " + "for restful nights",
    "$27.99", "$32.99", "/sleep-tea-package-with-valerian-and-passionflower.png",
    ["Deep sleep", "Relaxation", "Natural sedative"],
    4.9, 98, "7-10 min", "85°C",
    ["Valerian Root", "Passionflower", "Chamomile", "Lavender"],
    "Traditional, Herbal", true,
    ["Sleep", "Relaxation", "Traditional", "Herbal"])

  /** `allProducts` / `products`, in catalog order. */
  const AllProducts: seq<Product> := [
    TranquilEveningBlend, MorningClarityTea, StressReliefBlend,
    DigestiveHarmony, ImmuneBoostTea, DeepSleepBlend]

  /** No id is carried by two positions of the list. */
  predicate DistinctIds(ps: seq<Product>)
  {
    forall i, j | 0 <= i < j < |ps| :: ps[i].id != ps[j].id
  }

  /** The catalog's ids are 1 to 6 in catalog order, hence distinct. */
  lemma CatalogIds()
    ensures |AllProducts| == 6
    ensures forall i | 0 <= i < |AllProducts| :: AllProducts[i].id == i + 1
    ensures DistinctIds(AllProducts)
  {
    assert AllProducts[0].id == 1 && AllProducts[1].id == 2 && AllProducts[2].id == 3;
    assert AllProducts[3].id == 4 && AllProducts[4].id == 5 && AllProducts[5].id == 6;
  }

  /** Deleting products from a list with distinct ids leaves distinct ids. */
  lemma {:induction false} SubsequenceDistinctIds(a: seq<Product>, b: seq<Product>)
    requires IsSubsequence(a, b) && DistinctIds(b)
    ensures DistinctIds(a)
    decreases |b|
  {
    if a != [] {
      assert DistinctIds(b[1..]) by {
        forall i, j | 0 <= i < j < |b| - 1 ensures b[1..][i].id != b[1..][j].id {
          assert b[1..][i] == b[i + 1] && b[1..][j] == b[j + 1];
        }
      }
      if a[0] == b[0] && IsSubsequence(a[1..], b[1..]) {
        SubsequenceDistinctIds(a[1..], b[1..]);
        SubsequenceMembers(a[1..], b[1..]);
        forall i, j | 0 <= i < j < |a| ensures a[i].id != a[j].id {
          if i == 0 {
            assert a[j] == a[1..][j - 1] && a[j] in a[1..];
            var k :| 0 <= k < |b[1..]| && b[1..][k] == a[j];
            assert b[k + 1] == a[j];
          } else {
            assert a[i] == a[1..][i - 1] && a[j] == a[1..][j - 1];
          }
        }
      } else {
        SubsequenceDistinctIds(a, b[1..]);
      }
    }
  }

  /**
   * The number compared by the price filter: the price text with its first
   * "$" removed, read as cents.
   */
  function PriceCents(p: Product): Option<nat>
  {
    ParseCents(RemoveFirst(p.price, '$'))
  }

  /** The value of a digit character. */
  function DigitValue(c: char): int
  {
    c as int - '0' as int
  }

  /** A price written "$DD.DD" reads as that many cents. */
  lemma DollarPriceCents(s: string)
    requires |s| == 6 && s[0] == '$' && s[3] == '.'
    requires IsDigit(s[1]) && IsDigit(s[2]) && IsDigit(s[4]) && IsDigit(s[5])
    ensures ParseCents(RemoveFirst(s, '$')) ==
      Some((DigitValue(s[1]) * 10 + DigitValue(s[2])) * 100
           + DigitValue(s[4]) * 10 + DigitValue(s[5]))
  {
    assert FirstIndex(s, '$') == 0;
    var t := RemoveFirst(s, '$');
    assert t == s[1..];
    var whole, frac := t[..|t| - 3], t[|t| - 2..];
    assert whole == [s[1], s[2]] && whole[..1] == [s[1]];
    assert frac == [s[4], s[5]] && frac[..1] == [s[4]];
    assert whole[..1][..0] == [];
    assert DigitsValue(whole[..1]) == DigitValue(s[1]);
    assert DigitsValue(whole) == DigitValue(s[1]) * 10 + DigitValue(s[2]);
    assert frac[..1][..0] == [];
    assert DigitsValue(frac) == DigitValue(s[4]) * 10 + DigitValue(s[5]);
  }

  /** The catalog's prices, in cents, in catalog order. */
  lemma {:induction false} CatalogPrices()
    ensures PriceCents(TranquilEveningBlend) == Some(2499)
    ensures PriceCents(MorningClarityTea) == Some(2899)
    ensures PriceCents(StressReliefBlend) == Some(3299)
    ensures PriceCents(DigestiveHarmony) == Some(2699)
    ensures PriceCents(ImmuneBoostTea) == Some(2999)
    ensures PriceCents(DeepSleepBlend) == Some(2799)
  {
    DollarPriceCents(TranquilEveningBlend.price);
    DollarPriceCents(MorningClarityTea.price);
    DollarPriceCents(StressReliefBlend.price);
    DollarPriceCents(DigestiveHarmony.price);
    DollarPriceCents(ImmuneBoostTea.price);
    DollarPriceCents(DeepSleepBlend.price);
  }
}

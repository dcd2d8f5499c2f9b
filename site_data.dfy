/**
 * Shapes of the site's static datasets (shipped items, reflections, the
 * identity kernel, cognitive weights and headline figures). The datasets
 * themselves live in `src/data`, which is not part of this model, so every
 * operation takes them as parameters.
 */
module SiteData {
  import opened Json

  datatype ShippedItem = ShippedItem(date: string, name: string, detail: string)

  /** A weight as the sliders produce it: a multiple of 0.01 in [0, 1], counted in hundredths. */
  type Hundredths = h: int | 0 <= h <= 100

  /** A cognitive weight; `title` holds the record's `label` field, since `label` is a reserved word here. */
  datatype Weight = Weight(key: string, title: string, value: Hundredths)

  /** The headline figures, each already rendered as the page shows it (`toLocaleString` included). */
  datatype SystemStats = SystemStats(
    repos: string,
    models: string,
    shippedModules: string,
    controlPlaneLines: string,
    services: string,
    guardRules: string)

  /** One entry of the page's STATS list, its value already rendered; `title` holds the entry's `label`. */
  datatype Stat = Stat(title: string, value: string)

  datatype Dataset = Dataset(
    shipped: seq<ShippedItem>,
    reflections: seq<string>,
    identity: Value,
    weights: seq<Weight>,
    stats: SystemStats)
}

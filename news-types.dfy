/**
 * The records of the lab-news side of the system: scraped articles and
 * the sources they come from. Times are milliseconds since the epoch.
 */
module News {

  datatype Article = Article(
    title: string,
    description: string,
    date: string,
    link: string,
    image: string,
    sourceId: string,
    sourceName: string,
    institution: string,
    region: string,
    category: string,
    scrapedAt: int)

  datatype Source = Source(
    id: string,
    name: string,
    institution: string,
    region: string,
    category: string,
    url: string)
}

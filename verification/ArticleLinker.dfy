/**
 Linking QIDs to articles site by site: the batched form plans unique titles into
 chunks, fetches them concurrently and fills summaries; it must give what asking for
 one article after another gives.
 */
module ArticleLinker {
  import opened Wrappers
  import opened Sorting
  import opened WikidataQids

  type Site = string
  type Title = string

  // A site with its language.
  datatype SiteKey = SiteKey(language: string, site: Site)

  datatype Article = Article(language: string, title: Title, text: string)

  datatype FetchResult = FetchResult(status: string, article: Option<Article>, error: string)

  // Sitelinks in dictionary order, one to a site.
  datatype Entity = Entity(sitelinks: seq<(Site, Title)>)

  datatype LinkSummary = LinkSummary(
    qid: string, entity: Option<Entity>, articles: seq<Article>, statuses: map<Site, string>, errors: map<Site, string>)

  datatype Request = Request(index: nat, site: Site, title: Title)

  datatype Work = Work(key: SiteKey, titles: seq<Title>)

  // What the clients know: entities by QID, articles by site and title, and the
  // language each site name stands for. A batch answers every title asked.
  datatype Clients = Clients(
    entity: string -> Option<Entity>,
    article: (SiteKey, Title) -> FetchResult,
    batch: (SiteKey, seq<Title>) -> map<Title, FetchResult>,
    language: Site -> string)
  {
    ghost predicate Consistent() {
      forall key, titles ::
        && (forall t | t in titles :: t in batch(key, titles))
        && forall t | t in batch(key, titles) :: batch(key, titles)[t] == article(key, t)
    }

    function Key(site: Site): SiteKey {
      SiteKey(language(site), site)
    }

    predicate Allowed(site: Site, allow: Option<set<string>>) {
      allow.None? || language(site) in allow.value
    }
  }

  predicate SiteLeq(a: (Site, Title), b: (Site, Title)) {
    if a.0 != b.0 then TextLeq(a.0, b.0) else TextLeq(a.1, b.1)
  }

  function SortedLinks(e: Entity): seq<(Site, Title)> {
    StableSort(e.sitelinks, SiteLeq)
  }

  function Started(qid: string, entity: Option<Entity>): LinkSummary {
    LinkSummary(qid, entity, [], map[], map[])
  }

  /******* One by one *******/

  function RecordLinkResult(s: LinkSummary, site: Site, r: FetchResult): LinkSummary {
    var noted := s.(statuses := s.statuses[site := r.status]);
    if r.status == "article_not_found" || r.article.None? then noted.(errors := s.errors[site := r.error])
    else
      var linked := noted.(articles := s.articles + [r.article.value]);
      if r.status != "ok" then linked.(errors := s.errors[site := r.error]) else linked
  }

  // The first k links of an entity, asked one after another.
  function LinkedUpTo(s: LinkSummary, links: seq<(Site, Title)>, k: nat, clients: Clients,
                      allow: Option<set<string>>): LinkSummary
    requires k <= |links|
  {
    if k == 0 then s
    else
      var (site, title) := links[k - 1];
      var before := LinkedUpTo(s, links, k - 1, clients, allow);
      if clients.Allowed(site, allow) then RecordLinkResult(before, site, clients.article(clients.Key(site), title))
      else before
  }

  // A slice up to a limit, which may be negative.
  function Capped(articles: seq<Article>, limit: Option<int>): seq<Article> {
    if limit.None? then articles
    else if limit.value >= 0 then articles[..if limit.value <= |articles| then limit.value else |articles|]
    else articles[..if |articles| + limit.value >= 0 then |articles| + limit.value else 0]
  }

  function LinkEntity(qid: string, entity: Option<Entity>, clients: Clients, allow: Option<set<string>>,
                      limit: Option<int>): LinkSummary
  {
    match entity
    case None => var s := Started(qid, entity); s.(articles := Capped(s.articles, limit))
    case Some(e) =>
      var links := SortedLinks(e);
      var s := LinkedUpTo(Started(qid, entity), links, |links|, clients, allow);
      s.(articles := Capped(s.articles, limit))
  }

  /******* What a summary holds *******/

  // The links of an entity by site, each exactly once.
  ghost predicate InSiteOrder(links: seq<(Site, Title)>, sitelinks: seq<(Site, Title)>) {
    && multiset(links) == multiset(sitelinks)
    && forall i, j | 0 <= i < j < |links| ::
         TextLeq(links[i].0, links[j].0) && (links[i].0 == links[j].0 ==> TextLeq(links[i].1, links[j].1))
  }

  ghost predicate MayAsk(link: (Site, Title), clients: Clients, allow: Option<set<string>>) {
    allow == None || clients.language(link.0) in allow.value
  }

  ghost function AnswerTo(link: (Site, Title), clients: Clients): FetchResult {
    clients.article(SiteKey(clients.language(link.0), link.0), link.1)
  }

  ghost predicate HasArticle(r: FetchResult) {
    r.article != None && r.status != "article_not_found"
  }

  // The articles that the allowed ones of the first k links are answered with, in order.
  ghost function FoundArticles(links: seq<(Site, Title)>, k: nat, clients: Clients,
                               allow: Option<set<string>>): seq<Article>
    requires k <= |links|
  {
    if k == 0 then []
    else
      FoundArticles(links, k - 1, clients, allow)
      + if MayAsk(links[k - 1], clients, allow) && HasArticle(AnswerTo(links[k - 1], clients))
        then [AnswerTo(links[k - 1], clients).article.value] else []
  }

  // The first of all articles: all of them, up to a limit, or without so many of the last.
  ghost predicate CutTo(articles: seq<Article>, all: seq<Article>, limit: Option<int>) {
    && articles <= all
    && match limit
       case None => articles == all
       case Some(m) =>
         if m < 0 then |articles| == (if |all| <= -m then 0 else |all| - (-m))
         else |articles| <= m && (|articles| == m || articles == all)
  }

  // A status for each site that was asked, and an error unless the answer was good.
  ghost predicate Reported(s: LinkSummary, links: seq<(Site, Title)>, k: nat, clients: Clients,
                           allow: Option<set<string>>)
    requires k <= |links|
  {
    && (forall site :: site in s.statuses ==>
          exists i :: 0 <= i < k && links[i].0 == site && MayAsk(links[i], clients, allow))
    && s.errors.Keys <= s.statuses.Keys
    && forall i | 0 <= i < k && MayAsk(links[i], clients, allow) ::
         var r := AnswerTo(links[i], clients);
         && links[i].0 in s.statuses && s.statuses[links[i].0] == r.status
         && (links[i].0 in s.errors <==> !HasArticle(r) || r.status != "ok")
         && (links[i].0 in s.errors ==> s.errors[links[i].0] == r.error)
  }

  ghost predicate DistinctSites(links: seq<(Site, Title)>) {
    forall i, j | 0 <= i < j < |links| :: links[i].0 != links[j].0
  }

  ghost predicate Summarizes(s: LinkSummary, links: seq<(Site, Title)>, clients: Clients, allow: Option<set<string>>,
                             limit: Option<int>)
  {
    && CutTo(s.articles, FoundArticles(links, |links|, clients, allow), limit)
    && (DistinctSites(links) ==> Reported(s, links, |links|, clients, allow))
  }

  // The summary of one QID and its entity, told by what was asked and answered.
  ghost predicate Links(s: LinkSummary, qid: string, entity: Option<Entity>, clients: Clients,
                        allow: Option<set<string>>, limit: Option<int>)
  {
    && s.qid == qid && s.entity == entity
    && exists links ::
         InSiteOrder(links, if entity == None then [] else entity.value.sitelinks)
         && Summarizes(s, links, clients, allow, limit)
  }

  lemma SitesAreOrdered()
    ensures TotalPreorder(SiteLeq)
  {
    forall a, b ensures SiteLeq(a, b) || SiteLeq(b, a) {
      TextsCompare(a.0, b.0);
      TextsCompare(a.1, b.1);
    }
    forall a, b, c | SiteLeq(a, b) && SiteLeq(b, c) ensures SiteLeq(a, c) {
      SitesChain(a, b, c);
    }
  }

  lemma SitesChain(a: (Site, Title), b: (Site, Title), c: (Site, Title))
    requires SiteLeq(a, b) && SiteLeq(b, c)
    ensures SiteLeq(a, c)
  {
    hide TextLeq;
    TextsCompare(a.0, b.0);
    TextsCompare(b.0, c.0);
    TextsChain(a.0, b.0, c.0);
    if a.0 == c.0 {
      TextsChain(a.1, b.1, c.1);
    }
  }

  lemma SortedInOrder(e: Entity)
    ensures InSiteOrder(SortedLinks(e), e.sitelinks)
  {
    hide TextLeq;
    SitesAreOrdered();
    SortKeeps(e.sitelinks, SiteLeq);
    SortOrders(e.sitelinks, SiteLeq);
    var links := SortedLinks(e);
    forall i, j | 0 <= i < j < |links|
      ensures TextLeq(links[i].0, links[j].0) && (links[i].0 == links[j].0 ==> TextLeq(links[i].1, links[j].1))
    {
      assert SiteLeq(links[i], links[j]);
      TextsCompare(links[i].0, links[i].0);
    }
  }

  lemma RecordedArticles(s: LinkSummary, link: (Site, Title), clients: Clients)
    ensures var r, s' := AnswerTo(link, clients), RecordLinkResult(s, link.0, AnswerTo(link, clients));
            && s'.qid == s.qid && s'.entity == s.entity
            && s'.articles == s.articles + (if HasArticle(r) then [r.article.value] else [])
            && s'.statuses == s.statuses[link.0 := r.status]
            && s'.errors == if !HasArticle(r) || r.status != "ok" then s.errors[link.0 := r.error] else s.errors
  {}

  lemma {:induction false} LinkedArticles(s: LinkSummary, links: seq<(Site, Title)>, k: nat, clients: Clients,
                                          allow: Option<set<string>>)
    requires k <= |links|
    ensures var s' := LinkedUpTo(s, links, k, clients, allow);
            && s'.qid == s.qid && s'.entity == s.entity
            && s'.articles == s.articles + FoundArticles(links, k, clients, allow)
  {
    hide RecordLinkResult, HasArticle;
    if k > 0 {
      LinkedArticles(s, links, k - 1, clients, allow);
      RecordedArticles(LinkedUpTo(s, links, k - 1, clients, allow), links[k - 1], clients);
    }
  }

  lemma {:induction false} LinkedReports(s: LinkSummary, links: seq<(Site, Title)>, k: nat, clients: Clients,
                                         allow: Option<set<string>>)
    requires k <= |links| && DistinctSites(links) && s.statuses == map[] && s.errors == map[]
    ensures Reported(LinkedUpTo(s, links, k, clients, allow), links, k, clients, allow)
  {
    hide RecordLinkResult, HasArticle;
    if k > 0 {
      LinkedReports(s, links, k - 1, clients, allow);
      RecordedArticles(LinkedUpTo(s, links, k - 1, clients, allow), links[k - 1], clients);
      ReportedMore(LinkedUpTo(s, links, k - 1, clients, allow), LinkedUpTo(s, links, k, clients, allow), links, k,
                   clients, allow);
    }
  }

  lemma ReportedMore(s: LinkSummary, s': LinkSummary, links: seq<(Site, Title)>, k: nat, clients: Clients,
                     allow: Option<set<string>>)
    requires 0 < k <= |links| && DistinctSites(links) && Reported(s, links, k - 1, clients, allow)
    requires var r, site := AnswerTo(links[k - 1], clients), links[k - 1].0;
             if MayAsk(links[k - 1], clients, allow) then
               && s'.statuses == s.statuses[site := r.status]
               && s'.errors == if !HasArticle(r) || r.status != "ok" then s.errors[site := r.error] else s.errors
             else s' == s
    ensures Reported(s', links, k, clients, allow)
  {
    hide HasArticle, AnswerTo, MayAsk;
    assert links[k - 1].0 !in s.statuses;
  }

  lemma CappedIsCut(articles: seq<Article>, limit: Option<int>)
    ensures CutTo(Capped(articles, limit), articles, limit)
  {}

  lemma LinkedSummarizes(qid: string, entity: Option<Entity>, links: seq<(Site, Title)>, clients: Clients,
                         allow: Option<set<string>>, limit: Option<int>)
    ensures var s := LinkedUpTo(Started(qid, entity), links, |links|, clients, allow);
            && s.qid == qid && s.entity == entity
            && Summarizes(s.(articles := Capped(s.articles, limit)), links, clients, allow, limit)
  {
    hide LinkedUpTo, FoundArticles, CutTo, Capped, Reported;
    var s := LinkedUpTo(Started(qid, entity), links, |links|, clients, allow);
    LinkedArticles(Started(qid, entity), links, |links|, clients, allow);
    assert s.articles == FoundArticles(links, |links|, clients, allow);
    CappedIsCut(s.articles, limit);
    if DistinctSites(links) {
      LinkedReports(Started(qid, entity), links, |links|, clients, allow);
      SameReport(s, s.(articles := Capped(s.articles, limit)), links, clients, allow);
    }
  }

  lemma SameReport(s: LinkSummary, s': LinkSummary, links: seq<(Site, Title)>, clients: Clients,
                   allow: Option<set<string>>)
    requires Reported(s, links, |links|, clients, allow) && s'.statuses == s.statuses && s'.errors == s.errors
    ensures Reported(s', links, |links|, clients, allow)
  {}

  lemma NothingLinked(qid: string, clients: Clients, allow: Option<set<string>>, limit: Option<int>)
    ensures Links(LinkEntity(qid, None, clients, allow, limit), qid, None, clients, allow, limit)
  {
    assert InSiteOrder([], []);
    assert Summarizes(LinkEntity(qid, None, clients, allow, limit), [], clients, allow, limit);
  }

  // What linking one entity records is what its links are answered.
  lemma LinkEntityLinks(qid: string, entity: Option<Entity>, clients: Clients, allow: Option<set<string>>,
                        limit: Option<int>)
    ensures Links(LinkEntity(qid, entity, clients, allow, limit), qid, entity, clients, allow, limit)
  {
    hide InSiteOrder, Summarizes, LinkedUpTo, Capped, Started, SortedLinks;
    if entity == None {
      NothingLinked(qid, clients, allow, limit);
    } else {
      SortedInOrder(entity.value);
      LinkedSummarizes(qid, entity, SortedLinks(entity.value), clients, allow, limit);
    }
  }

  method LinkQid(qid: string, clients: Clients, allow: Option<set<string>>, u: Unicode) returns (s: LinkSummary)
    ensures s == LinkEntity(qid, if ValidQid(qid, u) then clients.entity(qid) else None, clients, allow, None)
    ensures Links(s, qid, if ValidQid(qid, u) then clients.entity(qid) else None, clients, allow, None)
  {
    LinkEntityLinks(qid, if ValidQid(qid, u) then clients.entity(qid) else None, clients, allow, None);
    hide Links;
    if !ValidQid(qid, u) {
      return Started(qid, None);
    }
    var entity := clients.entity(qid);
    if entity.None? {
      return Started(qid, None);
    }
    s := Started(qid, entity);
    var links := SortedLinks(entity.value);
    for k := 0 to |links|
      invariant s == LinkedUpTo(Started(qid, entity), links, k, clients, allow)
    {
      var (site, title) := links[k];
      if !clients.Allowed(site, allow) {
        continue;
      }
      s := RecordLinkResult(s, site, clients.article(clients.Key(site), title));
    }
  }

  method FetchCompatibilityQids(requested: seq<string>, clients: Clients, allow: Option<set<string>>,
                                limit: Option<int>, u: Unicode)
    returns (out: seq<LinkSummary>)
    ensures |out| == |requested|
    ensures forall i | 0 <= i < |out| ::
              out[i] == LinkEntity(requested[i],
                                   if ValidQid(requested[i], u) then clients.entity(requested[i]) else None,
                                   clients, allow, limit)
    ensures forall i | 0 <= i < |out| ::
              Links(out[i], requested[i], if ValidQid(requested[i], u) then clients.entity(requested[i]) else None,
                    clients, allow, limit)
  {
    hide Links;
    out := [];
    for i := 0 to |requested|
      invariant |out| == i
      invariant forall j | 0 <= j < i ::
                  out[j] == LinkEntity(requested[j],
                                       if ValidQid(requested[j], u) then clients.entity(requested[j]) else None,
                                       clients, allow, limit)
      invariant forall j | 0 <= j < i ::
                  Links(out[j], requested[j], if ValidQid(requested[j], u) then clients.entity(requested[j]) else None,
                        clients, allow, limit)
    {
      LinkEntityLinks(requested[i], if ValidQid(requested[i], u) then clients.entity(requested[i]) else None, clients,
                      allow, limit);
      var s := LinkQid(requested[i], clients, allow, u);
      if limit.Some? {
        s := s.(articles := Capped(s.articles, limit));
      }
      out := out + [s];
    }
  }

  /******* Chunks *******/

  function Chunks<T>(items: seq<T>, size: nat): seq<seq<T>>
    requires size > 0
    decreases |items|
  {
    if items == [] then []
    else if |items| <= size then [items]
    else [items[..size]] + Chunks(items[size..], size)
  }

  function Flat<T>(chunks: seq<seq<T>>, k: nat): seq<T>
    requires k <= |chunks|
  {
    if k == 0 then [] else Flat(chunks, k - 1) + chunks[k - 1]
  }

  lemma {:induction false} FlatFront<T>(chunks: seq<seq<T>>, k: nat)
    requires 0 < k <= |chunks|
    ensures Flat(chunks, k) == chunks[0] + Flat(chunks[1..], k - 1)
  {
    if k > 1 {
      FlatFront(chunks, k - 1);
    }
  }

  lemma {:induction false} ChunksFlatten<T>(items: seq<T>, size: nat)
    requires size > 0
    ensures Flat(Chunks(items, size), |Chunks(items, size)|) == items
    ensures forall c | c in Chunks(items, size) :: 0 < |c| <= size
    ensures items != [] ==> Chunks(items, size) != []
    decreases |items|
  {
    var chunks := Chunks(items, size);
    if |items| > size {
      ChunksFlatten(items[size..], size);
      FlatFront(chunks, |chunks|);
      assert chunks[1..] == Chunks(items[size..], size);
    } else if items != [] {
      assert Flat([items], 1) == Flat([items], 0) + items;
    }
  }

  /******* Who is asked what *******/

  // A dictionary of rows by site, its keys in order of insertion.
  datatype SiteRequests = SiteRequests(keys: seq<SiteKey>, rows: map<SiteKey, seq<Request>>) {
    ghost predicate Valid() {
      NoDuplicates(keys) && (forall k :: k in keys <==> k in rows) && forall k | k in rows :: rows[k] != []
    }

    function Add(key: SiteKey, row: Request): SiteRequests {
      if key in rows then SiteRequests(keys, rows[key := rows[key] + [row]])
      else SiteRequests(keys + [key], rows[key := [row]])
    }

    ghost predicate Asks(key: SiteKey, title: Title) {
      key in rows && title in Titles(rows[key])
    }
  }

  function Titles(rows: seq<Request>): seq<Title> {
    seq(|rows|, i requires 0 <= i < |rows| => rows[i].title)
  }

  function LinksOf(s: LinkSummary): seq<(Site, Title)> {
    if s.entity.None? then [] else SortedLinks(s.entity.value)
  }

  function AllLinks(summaries: seq<LinkSummary>, k: nat): seq<(Site, Title)>
    requires k <= |summaries|
  {
    if k == 0 then [] else AllLinks(summaries, k - 1) + LinksOf(summaries[k - 1])
  }

  // Some allowed link leads to this title on this site.
  ghost predicate Wanted(links: seq<(Site, Title)>, key: SiteKey, title: Title, clients: Clients,
                         allow: Option<set<string>>)
  {
    exists i :: 0 <= i < |links| && clients.Allowed(links[i].0, allow) && clients.Key(links[i].0) == key &&
        links[i].1 == title
  }

  ghost predicate Covers(requests: SiteRequests, links: seq<(Site, Title)>, clients: Clients,
                         allow: Option<set<string>>)
  {
    requests.Valid() && forall key, title :: requests.Asks(key, title) <==> Wanted(links, key, title, clients, allow)
  }

  lemma WantedOneMore(links: seq<(Site, Title)>, link: (Site, Title), key: SiteKey, title: Title, clients: Clients,
                      allow: Option<set<string>>)
    ensures Wanted(links + [link], key, title, clients, allow)
       <==> Wanted(links, key, title, clients, allow)
            || (clients.Allowed(link.0, allow) && clients.Key(link.0) == key && link.1 == title)
  {
    var more := links + [link];
    if i :|
         0 <= i < |links| && clients.Allowed(links[i].0, allow) && clients.Key(links[i].0) == key && links[i].1 == title
    {
      assert more[i] == links[i];
    }
    assert more[|links|] == link;
  }

  lemma AddCovers(requests: SiteRequests, links: seq<(Site, Title)>, link: (Site, Title), index: nat, clients: Clients,
                  allow: Option<set<string>>)
    requires Covers(requests, links, clients, allow)
    ensures Covers(
              if clients.Allowed(link.0, allow) then requests.Add(clients.Key(link.0), Request(index, link.0, link.1))
                  else requests,
              links + [link], clients, allow)
  {
    hide Wanted;
    var row := Request(index, link.0, link.1);
    var more := requests.Add(clients.Key(link.0), row);
    forall key, title
      ensures more.Asks(key, title) <==> requests.Asks(key, title) || (key == clients.Key(link.0) && title == link.1)
    {
      AddAsks(requests, clients.Key(link.0), row, key, title);
    }
    forall key, title
      ensures Wanted(links + [link], key, title, clients, allow)
         <==> Wanted(links, key, title, clients, allow)
              || (clients.Allowed(link.0, allow) && clients.Key(link.0) == key && link.1 == title)
    {
      WantedOneMore(links, link, key, title, clients, allow);
    }
  }

  lemma AddAsks(requests: SiteRequests, at: SiteKey, row: Request, key: SiteKey, title: Title)
    requires requests.Valid()
    ensures requests.Add(at, row).Valid()
    ensures requests.Add(at, row).Asks(key, title) <==> requests.Asks(key, title) || (key == at && title == row.title)
  {
    if at in requests.rows {
      assert Titles(requests.rows[at] + [row]) == Titles(requests.rows[at]) + [row.title];
    } else {
      assert Titles([row]) == [row.title];
    }
  }

  // The sites that allowed links lead to, and the titles they want of one, in their order.
  ghost function SitesAsked(links: seq<(Site, Title)>, clients: Clients, allow: Option<set<string>>): seq<SiteKey> {
    if links == [] then []
    else
      var last := links[|links| - 1];
      SitesAsked(links[..|links| - 1], clients, allow)
      + if MayAsk(last, clients, allow) then [SiteKey(clients.language(last.0), last.0)] else []
  }

  ghost function TitlesAsked(links: seq<(Site, Title)>, key: SiteKey, clients: Clients,
                             allow: Option<set<string>>): seq<Title> {
    if links == [] then []
    else
      var last := links[|links| - 1];
      TitlesAsked(links[..|links| - 1], key, clients, allow)
      + if MayAsk(last, clients, allow) && key == SiteKey(clients.language(last.0), last.0) then [last.1] else []
  }

  // Sites by the first link to them, and each one's titles by their links.
  ghost predicate InTurn(requests: SiteRequests, links: seq<(Site, Title)>, clients: Clients,
                         allow: Option<set<string>>) {
    && requests.Valid() && requests.keys == Distinct(SitesAsked(links, clients, allow))
    && forall key ::
         TitlesAsked(links, key, clients, allow) == if key in requests.rows then Titles(requests.rows[key]) else []
  }

  lemma AddInTurn(requests: SiteRequests, links: seq<(Site, Title)>, link: (Site, Title), index: nat, clients: Clients,
                  allow: Option<set<string>>)
    requires InTurn(requests, links, clients, allow)
    ensures InTurn(
              if clients.Allowed(link.0, allow) then requests.Add(clients.Key(link.0), Request(index, link.0, link.1))
                  else requests,
              links + [link], clients, allow)
  {
    hide SitesAsked, TitlesAsked, Titles, Distinct, SiteRequests.Asks;
    var at, row := clients.Key(link.0), Request(index, link.0, link.1);
    AddAsks(requests, at, row, at, link.1);
    SiteOneMore(links, link, clients, allow);
    DistinctHolds(SitesAsked(links, clients, allow));
    forall key
      ensures var more := if clients.Allowed(link.0, allow) then requests.Add(at, row) else requests;
              TitlesAsked(links + [link], key, clients, allow)
                == if key in more.rows then Titles(more.rows[key]) else []
    {
      AddTitles(requests, links, link, row, key, clients, allow);
    }
  }

  lemma AddTitles(requests: SiteRequests, links: seq<(Site, Title)>, link: (Site, Title), row: Request, key: SiteKey,
                  clients: Clients, allow: Option<set<string>>)
    requires row.title == link.1
    requires TitlesAsked(links, key, clients, allow)
          == if key in requests.rows then Titles(requests.rows[key]) else []
    ensures var more := if clients.Allowed(link.0, allow) then requests.Add(clients.Key(link.0), row) else requests;
            TitlesAsked(links + [link], key, clients, allow)
              == if key in more.rows then Titles(more.rows[key]) else []
  {
    hide TitlesAsked, Titles;
    TitleOneMore(links, link, key, clients, allow);
    TitlesOneMore(if key in requests.rows then requests.rows[key] else [], row);
  }

  lemma SiteOneMore(links: seq<(Site, Title)>, link: (Site, Title), clients: Clients, allow: Option<set<string>>)
    ensures var asked, at := Distinct(SitesAsked(links, clients, allow)), clients.Key(link.0);
            Distinct(SitesAsked(links + [link], clients, allow))
            == if clients.Allowed(link.0, allow) && at !in asked then asked + [at] else asked
  {
    assert (links + [link])[..|links|] == links;
    var asked, at := SitesAsked(links, clients, allow), clients.Key(link.0);
    assert (asked + [at])[..|asked|] == asked && asked + [] == asked;
  }

  lemma TitleOneMore(links: seq<(Site, Title)>, link: (Site, Title), key: SiteKey, clients: Clients,
                     allow: Option<set<string>>)
    ensures TitlesAsked(links + [link], key, clients, allow)
         == TitlesAsked(links, key, clients, allow)
            + if clients.Allowed(link.0, allow) && key == clients.Key(link.0) then [link.1] else []
  {
    assert (links + [link])[..|links|] == links;
  }

  lemma TitlesOneMore(rows: seq<Request>, row: Request)
    ensures Titles(rows + [row]) == Titles(rows) + [row.title] && Titles([]) == []
    ensures rows == [] ==> Titles([row]) == [row.title]
  {
    assert rows == [] ==> rows + [row] == [row];
  }

  method BuildSiteRequests(summaries: seq<LinkSummary>, clients: Clients, allow: Option<set<string>>)
    returns (requests: SiteRequests)
    ensures Covers(requests, AllLinks(summaries, |summaries|), clients, allow)
    ensures InTurn(requests, AllLinks(summaries, |summaries|), clients, allow)
  {
    hide Covers, InTurn;
    requests := SiteRequests([], map[]);
    NothingCovered(clients, allow);
    for i := 0 to |summaries|
      invariant Covers(requests, AllLinks(summaries, i), clients, allow)
      invariant InTurn(requests, AllLinks(summaries, i), clients, allow)
    {
      requests := AddLinks(requests, AllLinks(summaries, i), LinksOf(summaries[i]), i, clients, allow);
    }
  }

  method AddLinks(requests: SiteRequests, ghost so: seq<(Site, Title)>, links: seq<(Site, Title)>, index: nat,
                  clients: Clients, allow: Option<set<string>>)
    returns (more: SiteRequests)
    requires Covers(requests, so, clients, allow) && InTurn(requests, so, clients, allow)
    ensures Covers(more, so + links, clients, allow) && InTurn(more, so + links, clients, allow)
  {
    hide Covers, InTurn, SiteRequests.Add;
    more := requests;
    assert so + links[..0] == so;
    for j := 0 to |links|
      invariant Covers(more, so + links[..j], clients, allow) && InTurn(more, so + links[..j], clients, allow)
    {
      AddCovers(more, so + links[..j], links[j], index, clients, allow);
      AddInTurn(more, so + links[..j], links[j], index, clients, allow);
      assert so + links[..j + 1] == so + links[..j] + [links[j]];
      if clients.Allowed(links[j].0, allow) {
        more := more.Add(clients.Key(links[j].0), Request(index, links[j].0, links[j].1));
      }
    }
    assert links[..|links|] == links;
  }

  lemma NothingCovered(clients: Clients, allow: Option<set<string>>)
    ensures Covers(SiteRequests([], map[]), [], clients, allow)
    ensures InTurn(SiteRequests([], map[]), [], clients, allow)
  {}

  /******* The plan of work *******/

  type SiteChunks = map<SiteKey, seq<seq<Title>>>

  function ChunkSiteTitles(requests: SiteRequests, size: nat): SiteChunks
    requires size > 0
  {
    map key | key in requests.rows :: Chunks(Distinct(Titles(requests.rows[key])), size)
  }

  function ChunkCountsOf(chunks: SiteChunks): map<SiteKey, nat> {
    map key | key in chunks :: |chunks[key]|
  }

  // One chunk from each of the first k sites that has an i-th.
  function Layer(keys: seq<SiteKey>, chunks: SiteChunks, i: nat, k: nat): seq<Work>
    requires k <= |keys| && forall key | key in keys :: key in chunks
  {
    if k == 0 then []
    else Layer(keys, chunks, i, k - 1) + ChunkAt(keys[k - 1], chunks, i)
  }

  function ChunkAt(key: SiteKey, chunks: SiteChunks, i: nat): seq<Work>
    requires key in chunks
  {
    if i < |chunks[key]| then [Work(key, chunks[key][i])] else []
  }

  function RoundRobin(keys: seq<SiteKey>, chunks: SiteChunks, n: nat): seq<Work>
    requires forall key | key in keys :: key in chunks
  {
    if n == 0 then [] else RoundRobin(keys, chunks, n - 1) + Layer(keys, chunks, n - 1, |keys|)
  }

  // The most chunks any of the first k sites has.
  function Longest(keys: seq<SiteKey>, chunks: SiteChunks, k: nat): nat
    requires k <= |keys| && forall key | key in keys :: key in chunks
  {
    if k == 0 then 0
    else if Longest(keys, chunks, k - 1) < |chunks[keys[k - 1]]| then |chunks[keys[k - 1]]|
    else Longest(keys, chunks, k - 1)
  }

  lemma {:induction false} LongestIsLongest(keys: seq<SiteKey>, chunks: SiteChunks, k: nat)
    requires k <= |keys| && forall key | key in keys :: key in chunks
    ensures forall j | 0 <= j < k :: |chunks[keys[j]]| <= Longest(keys, chunks, k)
  {
    if k > 0 {
      LongestIsLongest(keys, chunks, k - 1);
    }
  }

  method MostChunks(keys: seq<SiteKey>, chunks: SiteChunks) returns (longest: nat)
    requires forall key | key in keys :: key in chunks
    ensures longest == Longest(keys, chunks, |keys|)
  {
    longest := 0;
    for k := 0 to |keys|
      invariant longest == Longest(keys, chunks, k)
    {
      if longest < |chunks[keys[k]]| {
        longest := |chunks[keys[k]]|;
      }
    }
  }

  method OneRound(keys: seq<SiteKey>, chunks: SiteChunks, i: nat) returns (layer: seq<Work>)
    requires forall key | key in keys :: key in chunks
    ensures layer == Layer(keys, chunks, i, |keys|)
  {
    layer := [];
    for k := 0 to |keys|
      invariant layer == Layer(keys, chunks, i, k)
    {
      if i < |chunks[keys[k]]| {
        layer := layer + [Work(keys[k], chunks[keys[k]][i])];
      }
    }
  }

  method RoundRobinSiteWork(keys: seq<SiteKey>, chunks: SiteChunks) returns (work: seq<Work>)
    requires forall key | key in keys :: key in chunks
    ensures work == RoundRobin(keys, chunks, Longest(keys, chunks, |keys|))
  {
    hide Longest, Layer;
    var longest := MostChunks(keys, chunks);
    work := [];
    for i := 0 to longest
      invariant work == RoundRobin(keys, chunks, i)
    {
      var layer := OneRound(keys, chunks, i);
      work := work + layer;
    }
  }

  // How often a site, and a title on it, occur in a plan.
  function Visits(work: seq<Work>, key: SiteKey): nat {
    if work == [] then 0
    else Visits(work[..|work| - 1], key) + if work[|work| - 1].key == key then 1 else 0
  }

  ghost function Occurrences(work: seq<Work>, key: SiteKey, title: Title): nat {
    if work == [] then 0
    else
      Occurrences(work[..|work| - 1], key, title)
      + if work[|work| - 1].key == key then multiset(work[|work| - 1].titles)[title] else 0
  }

  lemma {:induction false} CountsJoin(a: seq<Work>, b: seq<Work>, key: SiteKey, title: Title)
    ensures Visits(a + b, key) == Visits(a, key) + Visits(b, key)
    ensures Occurrences(a + b, key, title) == Occurrences(a, key, title) + Occurrences(b, key, title)
  {
    if b == [] {
      assert a + b == a;
    } else {
      CountsJoin(a, b[..|b| - 1], key, title);
      assert (a + b)[..|a + b| - 1] == a + b[..|b| - 1];
    }
  }

  lemma ChunkAtCounts(at: SiteKey, chunks: SiteChunks, i: nat, key: SiteKey, title: Title)
    requires at in chunks
    ensures Visits(ChunkAt(at, chunks, i), key) == if key == at && i < |chunks[at]| then 1 else 0
    ensures Occurrences(ChunkAt(at, chunks, i), key, title)
         == if key == at && i < |chunks[at]| then multiset(chunks[at][i])[title] else 0
  {
    if i < |chunks[at]| {
      assert ChunkAt(at, chunks, i)[..0] == [];
    }
  }

  lemma {:induction false} LayerCounts(keys: seq<SiteKey>, chunks: SiteChunks, i: nat, k: nat, key: SiteKey,
                                       title: Title)
    requires k <= |keys| && NoDuplicates(keys) && forall key | key in keys :: key in chunks
    requires key in chunks
    ensures Visits(Layer(keys, chunks, i, k), key) ==
              if key in keys[..k] then Visits(ChunkAt(key, chunks, i), key) else 0
    ensures Occurrences(Layer(keys, chunks, i, k), key, title)
         == if key in keys[..k] then Occurrences(ChunkAt(key, chunks, i), key, title) else 0
  {
    hide ChunkAt, Visits, Occurrences;
    if k == 0 {
      NothingCounts(key, title);
    } else {
      var at := keys[k - 1];
      LayerCounts(keys, chunks, i, k - 1, key, title);
      assert keys[..k] == keys[..k - 1] + [at];
      assert at !in keys[..k - 1];
      CountsJoin(Layer(keys, chunks, i, k - 1), ChunkAt(at, chunks, i), key, title);
      ChunkAtCounts(at, chunks, i, key, title);
    }
  }

  lemma NothingCounts(key: SiteKey, title: Title)
    ensures Visits([], key) == 0 && Occurrences([], key, title) == 0
  {}

  function Min(a: nat, b: nat): nat {
    if a < b then a else b
  }

  lemma {:induction false} RoundRobinCounts(keys: seq<SiteKey>, chunks: SiteChunks, n: nat, key: SiteKey, title: Title)
    requires NoDuplicates(keys) && (forall key | key in keys :: key in chunks) && key in keys
    ensures Visits(RoundRobin(keys, chunks, n), key) == Min(n, |chunks[key]|)
    ensures Occurrences(RoundRobin(keys, chunks, n), key, title) ==
              multiset(Flat(chunks[key], Min(n, |chunks[key]|)))[title]
  {
    hide ChunkAt, Visits, Occurrences;
    if n == 0 {
      NothingCounts(key, title);
    } else {
      RoundRobinCounts(keys, chunks, n - 1, key, title);
      LayerCounts(keys, chunks, n - 1, |keys|, key, title);
      assert keys[..|keys|] == keys;
      CountsJoin(RoundRobin(keys, chunks, n - 1), Layer(keys, chunks, n - 1, |keys|), key, title);
      ChunkAtCounts(key, chunks, n - 1, key, title);
    }
  }

  lemma {:induction false} OtherSitesNotVisited(work: seq<Work>, key: SiteKey, title: Title)
    requires forall w | w in work :: w.key != key
    ensures Visits(work, key) == 0 && Occurrences(work, key, title) == 0
  {
    if work != [] {
      assert work == work[..|work| - 1] + [work[|work| - 1]];
      OtherSitesNotVisited(work[..|work| - 1], key, title);
    }
  }

  // Each site is visited once for each of its chunks, and every title wanted of it is
  // asked exactly once; nothing else is asked.
  ghost predicate Plans(work: seq<Work>, requests: SiteRequests, remaining: map<SiteKey, nat>) {
    && remaining.Keys == requests.rows.Keys
    && (forall key | key in remaining :: remaining[key] == Visits(work, key) > 0)
    && forall key, title :: Occurrences(work, key, title) == if requests.Asks(key, title) then 1 else 0
  }

  method PlanSiteWork(requests: SiteRequests, size: nat) returns (work: seq<Work>, remaining: map<SiteKey, nat>)
    requires requests.Valid() && size > 0
    ensures Plans(work, requests, remaining)
    ensures forall w | w in work :: w.key in requests.rows
  {
    var chunks := ChunkSiteTitles(requests, size);
    work := RoundRobinSiteWork(requests.keys, chunks);
    ghost var rounds := Longest(requests.keys, chunks, |requests.keys|);
    LongestIsLongest(requests.keys, chunks, |requests.keys|);
    remaining := ChunkCountsOf(chunks);
    RoundRobinPlans(requests, size, rounds);
  }

  lemma RoundRobinPlans(requests: SiteRequests, size: nat, rounds: nat)
    requires requests.Valid() && size > 0
    requires forall key | key in requests.keys :: |ChunkSiteTitles(requests, size)[key]| <= rounds
    ensures var chunks := ChunkSiteTitles(requests, size);
            var work := RoundRobin(requests.keys, chunks, rounds);
            && Plans(work, requests, ChunkCountsOf(chunks))
            && forall w | w in work :: w.key in requests.rows
  {
    hide RoundRobin, Visits, Occurrences, NoDuplicates;
    var chunks := ChunkSiteTitles(requests, size);
    var work := RoundRobin(requests.keys, chunks, rounds);
    RoundRobinSites(requests.keys, chunks, rounds);
    forall key, title
      ensures Occurrences(work, key, title) == if requests.Asks(key, title) then 1 else 0
    {
      PlansOne(requests, size, rounds, key, title);
    }
    forall key | key in chunks
      ensures |chunks[key]| == Visits(work, key) > 0
    {
      PlansOne(requests, size, rounds, key, "");
    }
    assert ChunkCountsOf(chunks).Keys == requests.rows.Keys;
  }

  lemma PlansOne(requests: SiteRequests, size: nat, rounds: nat, key: SiteKey, title: Title)
    requires requests.Valid() && size > 0
    requires forall key | key in requests.keys :: |ChunkSiteTitles(requests, size)[key]| <= rounds
    ensures var chunks := ChunkSiteTitles(requests, size);
            var work := RoundRobin(requests.keys, chunks, rounds);
            && Occurrences(work, key, title) == (if requests.Asks(key, title) then 1 else 0)
            && (key in chunks ==> |chunks[key]| == Visits(work, key) > 0)
  {
    hide RoundRobin, Visits, Occurrences, NoDuplicates, Chunks, Distinct;
    var chunks := ChunkSiteTitles(requests, size);
    if key in requests.rows {
      RoundRobinCounts(requests.keys, chunks, rounds, key, title);
      ChunkCounts(requests, size, key, title);
    } else {
      RoundRobinSites(requests.keys, chunks, rounds);
      OtherSitesNotVisited(RoundRobin(requests.keys, chunks, rounds), key, title);
    }
  }

  lemma ChunkCounts(requests: SiteRequests, size: nat, key: SiteKey, title: Title)
    requires requests.Valid() && size > 0 && key in requests.rows
    ensures var chunks := ChunkSiteTitles(requests, size)[key];
            && |chunks| > 0
            && multiset(Flat(chunks, |chunks|))[title] == if requests.Asks(key, title) then 1 else 0
  {
    var titles := Titles(requests.rows[key]);
    var unique := Distinct(titles);
    DistinctHolds(titles);
    assert titles[0] in unique;
    ChunksFlatten(unique, size);
    AtMostOnce(unique, title);
    assert title in unique <==> title in titles;
  }

  lemma {:induction false} LayerSites(keys: seq<SiteKey>, chunks: SiteChunks, i: nat, k: nat)
    requires k <= |keys| && forall key | key in keys :: key in chunks
    ensures forall w | w in Layer(keys, chunks, i, k) :: w.key in keys
  {
    if k > 0 {
      LayerSites(keys, chunks, i, k - 1);
    }
  }

  lemma {:induction false} RoundRobinSites(keys: seq<SiteKey>, chunks: SiteChunks, n: nat)
    requires forall key | key in keys :: key in chunks
    ensures forall w | w in RoundRobin(keys, chunks, n) :: w.key in keys
  {
    if n > 0 {
      hide Layer;
      RoundRobinSites(keys, chunks, n - 1);
      LayerSites(keys, chunks, n - 1, |keys|);
    }
  }

  /******* Fetching in any order *******/

  function Without(work: seq<Work>, j: nat): seq<Work>
    requires j < |work|
  {
    work[..j] + work[j + 1..]
  }

  lemma CountsWithout(work: seq<Work>, j: nat, key: SiteKey, title: Title)
    requires j < |work|
    ensures Visits(work, key) == Visits(Without(work, j), key) + Visits([work[j]], key)
    ensures Occurrences(work, key, title) ==
              Occurrences(Without(work, j), key, title) + Occurrences([work[j]], key, title)
    ensures multiset(Without(work, j)) == multiset(work) - multiset{work[j]} && |Without(work, j)| == |work| - 1
  {
    hide Visits, Occurrences;
    assert work == work[..j] + [work[j]] + work[j + 1..];
    CountsJoin(work[..j] + [work[j]], work[j + 1..], key, title);
    CountsJoin(work[..j], [work[j]], key, title);
    CountsJoin(work[..j], work[j + 1..], key, title);
  }

  lemma {:induction false} SameCounts(a: seq<Work>, b: seq<Work>, key: SiteKey, title: Title)
    requires multiset(a) == multiset(b)
    ensures Visits(a, key) == Visits(b, key) && Occurrences(a, key, title) == Occurrences(b, key, title)
    decreases |a|
  {
    hide Visits, Occurrences, Without;
    assert |a| == |multiset(a)| == |multiset(b)| == |b|;
    if a != [] {
      assert a[0] in multiset(b);
      var j :| 0 <= j < |b| && b[j] == a[0];
      CountsWithout(a, 0, key, title);
      CountsWithout(b, j, key, title);
      SameCounts(Without(a, 0), Without(b, j), key, title);
    }
  }

  lemma {:induction false} OccurrenceIsSomewhere(work: seq<Work>, key: SiteKey, title: Title)
    requires Occurrences(work, key, title) > 0
    ensures exists j :: 0 <= j < |work| && work[j].key == key && title in work[j].titles
  {
    var last := work[|work| - 1];
    if !(last.key == key && title in last.titles) {
      assert last.key == key ==> multiset(last.titles)[title] == 0;
      OccurrenceIsSomewhere(work[..|work| - 1], key, title);
      var j :| 0 <= j < |work| - 1 && work[..|work| - 1][j].key == key && title in work[..|work| - 1][j].titles;
      assert work[j].key == key;
    }
  }

  // One visit out of all of them.
  lemma VisitAt(work: seq<Work>, i: nat, key: SiteKey)
    requires i < |work|
    ensures Visits(work[..i + 1], key) == Visits(work[..i], key) + if work[i].key == key then 1 else 0
    ensures Visits(work[..i + 1], key) <= Visits(work, key)
  {
    assert work[..i + 1][..i] == work[..i];
    CountsJoin(work[..i + 1], work[i + 1..], key, "");
    assert work[..i + 1] + work[i + 1..] == work;
  }

  type Fetched = map<SiteKey, map<Title, FetchResult>>

  ghost predicate Answers(fetched: Fetched, key: SiteKey, title: Title, clients: Clients) {
    key in fetched && title in fetched[key] && fetched[key][title] == clients.article(key, title)
  }

  ghost predicate OnlyAnswers(fetched: Fetched, clients: Clients) {
    forall key, title | key in fetched && title in fetched[key] :: fetched[key][title] == clients.article(key, title)
  }

  // The first k pieces of work have been answered.
  ghost predicate Answered(fetched: Fetched, completed: seq<Work>, k: nat, clients: Clients)
    requires k <= |completed|
  {
    forall j, title | 0 <= j < k && title in completed[j].titles :: Answers(fetched, completed[j].key, title, clients)
  }

  lemma NothingAnswered(fetched: Fetched, completed: seq<Work>, clients: Clients)
    ensures Answered(fetched, completed, 0, clients)
  {}

  lemma AnsweredOneMore(before: Fetched, fetched: Fetched, completed: seq<Work>, k: nat, clients: Clients)
    requires k < |completed| && Answered(before, completed, k, clients)
    requires forall key, title | Answers(before, key, title, clients) :: Answers(fetched, key, title, clients)
    requires forall title | title in completed[k].titles :: Answers(fetched, completed[k].key, title, clients)
    ensures Answered(fetched, completed, k + 1, clients)
  {
    hide Answers;
  }

  lemma AnsweredThere(fetched: Fetched, completed: seq<Work>, key: SiteKey, title: Title, clients: Clients)
    requires Answered(fetched, completed, |completed|, clients)
    requires exists j :: 0 <= j < |completed| && completed[j].key == key && title in completed[j].titles
    ensures Answers(fetched, key, title, clients)
  {}

  // What has been visited so often as planned is reported complete.
  ghost predicate Reports(reported: seq<SiteKey>, remaining: map<SiteKey, nat>) {
    NoDuplicates(reported) && forall key :: key in reported <==> key in remaining && remaining[key] == 0
  }

  method ConsumeSite(w: Work, fetched: Fetched, remaining: map<SiteKey, nat>, reported: seq<SiteKey>, clients: Clients)
    returns (fetched': Fetched, remaining': map<SiteKey, nat>, reported': seq<SiteKey>)
    requires clients.Consistent() && OnlyAnswers(fetched, clients) && Reports(reported, remaining)
    requires w.key in fetched && w.key in remaining && remaining[w.key] > 0
    ensures OnlyAnswers(fetched', clients) && fetched'.Keys == fetched.Keys
    ensures forall key, title | Answers(fetched, key, title, clients) :: Answers(fetched', key, title, clients)
    ensures forall title | title in w.titles :: Answers(fetched', w.key, title, clients)
    ensures remaining' == remaining[w.key := remaining[w.key] - 1]
    ensures Reports(reported', remaining') && reported <= reported'
  {
    var results := clients.batch(w.key, w.titles);
    fetched' := fetched[w.key := fetched[w.key] + results];
    remaining' := remaining[w.key := remaining[w.key] - 1];
    reported' := if remaining'[w.key] == 0 then reported + [w.key] else reported;
  }

  method FetchSiteWork(work: seq<Work>, completed: seq<Work>, requests: SiteRequests,
                       chunksRemaining: map<SiteKey, nat>, clients: Clients)
    returns (fetched: Fetched, reported: seq<SiteKey>)
    requires Plans(work, requests, chunksRemaining) && clients.Consistent()
    requires multiset(completed) == multiset(work) && forall w | w in work :: w.key in requests.rows
    ensures forall key, title | requests.Asks(key, title) :: Answers(fetched, key, title, clients)
    ensures NoDuplicates(reported) && forall key :: key in reported <==> key in requests.rows
  {
    hide Visits, Occurrences, Answers, OnlyAnswers, Clients.Consistent, SiteRequests.Asks, Reports, Plans, Answered;
    var remaining := chunksRemaining;
    fetched := map key | key in requests.rows :: map[];
    reported := [];
    PlannedOnce(work, requests, remaining);
    NothingAnswered(fetched, completed, clients);
    NothingFetched(fetched, remaining, clients);
    PlannedVisits(work, completed, requests, remaining);
    for i := 0 to |completed|
      invariant fetched.Keys == remaining.Keys == requests.rows.Keys
      invariant OnlyAnswers(fetched, clients) && Reports(reported, remaining)
      invariant forall key | key in remaining :: remaining[key] == Visits(completed, key) - Visits(completed[..i], key)
      invariant Answered(fetched, completed, i, clients)
    {
      var w := completed[i];
      assert w in multiset(work);
      VisitsAt(completed, i);
      ghost var before := fetched;
      fetched, remaining, reported := ConsumeSite(w, fetched, remaining, reported, clients);
      AnsweredOneMore(before, fetched, completed, i, clients);
    }
    assert completed[..|completed|] == completed;
    forall key, title | requests.Asks(key, title)
      ensures Answers(fetched, key, title, clients)
    {
      AskedSomewhere(work, completed, requests, chunksRemaining, key, title);
      AnsweredThere(fetched, completed, key, title, clients);
    }
    AllReported(reported, remaining);
  }

  lemma PlannedOnce(work: seq<Work>, requests: SiteRequests, remaining: map<SiteKey, nat>)
    requires Plans(work, requests, remaining)
    ensures forall key | key in remaining :: remaining[key] > 0
  {}

  lemma PlannedVisits(work: seq<Work>, completed: seq<Work>, requests: SiteRequests, remaining: map<SiteKey, nat>)
    requires Plans(work, requests, remaining) && multiset(completed) == multiset(work)
    ensures remaining.Keys == requests.rows.Keys
    ensures forall key | key in remaining :: remaining[key] == Visits(completed, key) - Visits(completed[..0], key)
  {
    hide Visits, Occurrences;
    forall key
      ensures key in remaining ==> remaining[key] == Visits(completed, key) - Visits(completed[..0], key)
    {
      SameCounts(work, completed, key, "");
      NothingCounts(key, "");
    }
  }

  lemma AskedSomewhere(work: seq<Work>, completed: seq<Work>, requests: SiteRequests, remaining: map<SiteKey, nat>,
                       key: SiteKey, title: Title)
    requires Plans(work, requests, remaining) && multiset(completed) == multiset(work) && requests.Asks(key, title)
    ensures exists j :: 0 <= j < |completed| && completed[j].key == key && title in completed[j].titles
  {
    hide Visits, Occurrences;
    SameCounts(work, completed, key, title);
    OccurrenceIsSomewhere(completed, key, title);
  }

  lemma VisitsAt(work: seq<Work>, i: nat)
    requires i < |work|
    ensures forall key ::
              && Visits(work[..i + 1], key) == Visits(work[..i], key) + (if work[i].key == key then 1 else 0)
              && Visits(work[..i + 1], key) <= Visits(work, key)
  {
    hide Visits;
    forall key
      ensures Visits(work[..i + 1], key) == Visits(work[..i], key) + (if work[i].key == key then 1 else 0)
      ensures Visits(work[..i + 1], key) <= Visits(work, key)
    {
      VisitAt(work, i, key);
    }
  }

  lemma NothingFetched(fetched: Fetched, remaining: map<SiteKey, nat>, clients: Clients)
    requires forall key | key in fetched :: fetched[key] == map[]
    requires forall key | key in remaining :: remaining[key] > 0
    ensures OnlyAnswers(fetched, clients) && Reports([], remaining)
  {}

  lemma AllReported(reported: seq<SiteKey>, remaining: map<SiteKey, nat>)
    requires Reports(reported, remaining) && forall key | key in remaining :: remaining[key] == 0
    ensures NoDuplicates(reported) && forall key :: key in reported <==> key in remaining
  {}

  /******* Filling the summaries *******/

  function ApplyArticleResult(s: LinkSummary, site: Site, r: FetchResult): LinkSummary {
    var noted := s.(statuses := s.statuses[site := r.status]);
    if r.status != "article_not_found" && r.article.Some? then
      var linked := noted.(articles := s.articles + [r.article.value]);
      if r.status != "ok" then linked.(errors := s.errors[site := r.error]) else linked
    else noted.(errors := s.errors[site := r.error])
  }

  lemma AppliedAsRecorded(s: LinkSummary, site: Site, r: FetchResult)
    ensures ApplyArticleResult(s, site, r) == RecordLinkResult(s, site, r)
  {}

  // Every lookup finds its answer, and the summary is the one linking directly gives.
  method PopulateSummary(summary: LinkSummary, fetched: Fetched, clients: Clients, allow: Option<set<string>>,
                         limit: Option<int>)
    returns (s: LinkSummary)
    requires summary == Started(summary.qid, summary.entity)
    requires forall link | link in LinksOf(summary) && clients.Allowed(link.0, allow) ::
               Answers(fetched, clients.Key(link.0), link.1, clients)
    ensures s == LinkEntity(summary.qid, summary.entity, clients, allow, limit)
    ensures Links(s, summary.qid, summary.entity, clients, allow, limit)
  {
    LinkEntityLinks(summary.qid, summary.entity, clients, allow, limit);
    hide Links;
    s := summary;
    if summary.entity.None? {
      return;
    }
    var links := SortedLinks(summary.entity.value);
    for k := 0 to |links|
      invariant s == LinkedUpTo(summary, links, k, clients, allow)
    {
      var (site, title) := links[k];
      if !clients.Allowed(site, allow) {
        continue;
      }
      assert links[k] in LinksOf(summary);
      var result := fetched[clients.Key(site)][title];
      AppliedAsRecorded(s, site, result);
      s := ApplyArticleResult(s, site, result);
    }
    if limit.Some? {
      s := s.(articles := Capped(s.articles, limit));
    }
  }

  function EntitiesOf(qids: seq<string>, clients: Clients): seq<Option<Entity>> {
    seq(|qids|, i requires 0 <= i < |qids| => clients.entity(qids[i]))
  }

  lemma EntitiesJoin(a: seq<string>, b: seq<string>, clients: Clients)
    ensures EntitiesOf(a + b, clients) == EntitiesOf(a, clients) + EntitiesOf(b, clients)
  {}

  method FetchBatchedEntities(requested: seq<string>, clients: Clients, size: nat) returns (summaries: seq<LinkSummary>)
    requires size > 0
    ensures |summaries| == |requested|
    ensures forall i | 0 <= i < |requested| :: summaries[i] == Started(requested[i], clients.entity(requested[i]))
  {
    var entities: seq<Option<Entity>>;
    entities := FetchEntityChunks(requested, clients, size);
    summaries := seq(|requested|, i requires 0 <= i < |requested| => Started(requested[i], entities[i]));
  }

  method FetchEntityChunks(requested: seq<string>, clients: Clients, size: nat) returns (entities: seq<Option<Entity>>)
    requires size > 0
    ensures entities == EntitiesOf(requested, clients)
  {
    hide EntitiesOf, Chunks;
    var chunks := Chunks(requested, size);
    ChunksFlatten(requested, size);
    entities := EntitiesOf([], clients);
    for k := 0 to |chunks|
      invariant entities == EntitiesOf(Flat(chunks, k), clients)
    {
      EntitiesJoin(Flat(chunks, k), chunks[k], clients);
      entities := entities + EntitiesOf(chunks[k], clients);
    }
  }

  lemma {:induction false} LinkIsWanted(summaries: seq<LinkSummary>, k: nat, i: nat, link: (Site, Title),
                                        clients: Clients, allow: Option<set<string>>)
    requires i < k <= |summaries| && link in LinksOf(summaries[i]) && clients.Allowed(link.0, allow)
    ensures Wanted(AllLinks(summaries, k), clients.Key(link.0), link.1, clients, allow)
  {
    var all := AllLinks(summaries, k);
    LinksAreAll(summaries, k, i, link);
    var j :| 0 <= j < |all| && all[j] == link;
  }

  lemma {:induction false} LinksAreAll(summaries: seq<LinkSummary>, k: nat, i: nat, link: (Site, Title))
    requires i < k <= |summaries| && link in LinksOf(summaries[i])
    ensures link in AllLinks(summaries, k)
  {
    if i < k - 1 {
      LinksAreAll(summaries, k - 1, i, link);
    }
  }

  lemma EveryLinkAnswered(summaries: seq<LinkSummary>, i: nat, requests: SiteRequests, fetched: Fetched,
                          clients: Clients, allow: Option<set<string>>)
    requires i < |summaries| && Covers(requests, AllLinks(summaries, |summaries|), clients, allow)
    requires forall key, title | requests.Asks(key, title) :: Answers(fetched, key, title, clients)
    ensures forall link | link in LinksOf(summaries[i]) && clients.Allowed(link.0, allow) ::
              Answers(fetched, clients.Key(link.0), link.1, clients)
  {
    hide Wanted, Answers, SiteRequests.Asks, LinksOf, AllLinks;
    forall link | link in LinksOf(summaries[i]) && clients.Allowed(link.0, allow)
      ensures Answers(fetched, clients.Key(link.0), link.1, clients)
    {
      LinkIsWanted(summaries, |summaries|, i, link, clients, allow);
    }
  }

  // The workers may finish in any order: schedule rearranges the planned work.
  method FetchBatchedQids(requested: seq<string>, clients: Clients, allow: Option<set<string>>, limit: Option<int>,
                          size: nat, schedule: seq<Work> -> seq<Work>)
    returns (out: seq<LinkSummary>, reported: seq<SiteKey>)
    requires size > 0 && clients.Consistent()
    requires forall work :: multiset(schedule(work)) == multiset(work)
    ensures |out| == |requested|
    ensures forall i | 0 <= i < |out| ::
              out[i] == LinkEntity(requested[i], clients.entity(requested[i]), clients, allow, limit)
    ensures forall i | 0 <= i < |out| ::
              Links(out[i], requested[i], clients.entity(requested[i]), clients, allow, limit)
    ensures NoDuplicates(reported)
  {
    hide Links, Clients.Consistent, SiteRequests.Asks, Plans, Answers, LinkEntity, InTurn, AllLinks, LinksOf;
    var summaries := FetchBatchedEntities(requested, clients, size);
    var requests := BuildSiteRequests(summaries, clients, allow);
    var work, remaining := PlanSiteWork(requests, size);
    var fetched;
    fetched, reported := FetchSiteWork(work, schedule(work), requests, remaining, clients);
    out := [];
    for i := 0 to |summaries|
      invariant |out| == i
      invariant forall j | 0 <= j < i ::
          out[j] == LinkEntity(requested[j], clients.entity(requested[j]), clients, allow, limit)
      invariant forall j | 0 <= j < i ::
          Links(out[j], requested[j], clients.entity(requested[j]), clients, allow, limit)
    {
      EveryLinkAnswered(summaries, i, requests, fetched, clients, allow);
      var s := PopulateSummary(summaries[i], fetched, clients, allow, limit);
      out := out + [s];
    }
  }

  datatype FetchError = BadBatchSize | BadWorkers

  // Batched or one by one, the summaries are the same when the entity client knows
  // nothing of malformed QIDs.
  method FetchQids(requested: seq<string>, clients: Clients, allow: Option<set<string>>, limit: Option<int>,
                   size: int, workers: int, batching: bool, schedule: seq<Work> -> seq<Work>, u: Unicode)
    returns (r: Result<seq<LinkSummary>, FetchError>)
    requires clients.Consistent() && forall work :: multiset(schedule(work)) == multiset(work)
    ensures r.Success? <==> size >= 1 && workers >= 1
    ensures r.Success? && (forall q | q in requested && !ValidQid(q, u) :: clients.entity(q) == None) ==>
              r.value == seq(|requested|, i requires 0 <= i < |requested| =>
                LinkEntity(requested[i], clients.entity(requested[i]), clients, allow, limit))
    // what each summary holds, in either mode
    ensures r.Success? ==>
              && |r.value| == |requested|
              && forall i | 0 <= i < |requested| ::
                   Links(r.value[i], requested[i],
                         if batching || ValidQid(requested[i], u) then clients.entity(requested[i]) else None,
                         clients, allow, limit)
  {
    hide Links, LinkEntity;
    if size < 1 {
      return Failure(BadBatchSize);
    }
    if workers < 1 {
      return Failure(BadWorkers);
    }
    var out;
    if batching {
      var reported;
      out, reported := FetchBatchedQids(requested, clients, allow, limit, size, schedule);
    } else {
      out := FetchCompatibilityQids(requested, clients, allow, limit, u);
    }
    r := Success(out);
  }
}

/** The search client: its configuration, the pagination loop that updates its query
    parameters in place, and the loop that turns raw items into flat records. */
module Client {
  import opened Json
  import opened Paginator
  import opened Extractor

  class NewEggClient {
    static const BaseUrl: string := "https://www.newegg.com/store/api/GetShopAllDeals"

    static const QueryParams: map<string, Json> :=
      map["pageIndex" := JInt(1), "pageSize" := JInt(60), "enableSpaItem" := JBool(true)]

    static const DefaultFileName: string := "product_extract"

    /** The query parameters sent with every request; the page loop rewrites "pageIndex". */
    var queryParameters: map<string, Json>
    const url: string
    const csvFields: seq<string>
    const noOfProducts: int
    const fileName: string

    constructor (queryParameters: map<string, Json> := QueryParams, url: string := BaseUrl,
                 csvFields: seq<string> := FieldNames, noOfProducts: int := 100,
                 fileName: string := DefaultFileName)
      ensures this.queryParameters == queryParameters && this.url == url
      ensures this.csvFields == csvFields && this.noOfProducts == noOfProducts
      ensures this.fileName == fileName
    {
      this.queryParameters := queryParameters;
      this.url := url;
      this.csvFields := csvFields;
      this.noOfProducts := noOfProducts;
      this.fileName := fileName;
    }

    /** `get_products`: requests pages 1 .. last_page-1 through `callSearchApi`, which
        stands for the GET against `url` with the current query parameters, and joins
        the pages. A request that yields nothing makes `items.extend(None)` raise; the
        exception is caught and the items gathered so far are returned. The page count
        is computed outside that `try`, so its TypeError escapes.
        `requested` records the page index of every request made, in order. Afterwards
        "pageIndex" holds the last index requested and every other parameter is as before. */
    method GetProducts(callSearchApi: SearchApi) returns (r: Result<seq<Json>, PyError>, ghost requested: seq<int>)
      modifies this
      ensures var last := old(LastPage(noOfProducts, queryParameters));
              last.Failure? ==> r == Failure(last.error) && requested == []
      ensures var last := old(LastPage(noOfProducts, queryParameters));
              last.Success? ==>
                && r == Success(Gather(callSearchApi, old(queryParameters), 1, PageBound(last.value)))
                && requested == Requested(callSearchApi, old(queryParameters), 1, PageBound(last.value))
      ensures var last := old(LastPage(noOfProducts, queryParameters));
              last.Success? && PageBound(last.value) <= 1 ==> r == Success([]) && requested == []
      ensures queryParameters == if requested == [] then old(queryParameters)
                                 else PageQuery(old(queryParameters), requested[|requested| - 1])
    {
      var lastPage := LastPage(noOfProducts, queryParameters);
      requested := [];
      if lastPage.Failure? {
        return Failure(lastPage.error), requested;
      }
      ghost var initial := queryParameters;
      var items: seq<Json> := [];
      if lastPage.value.Some? && lastPage.value.value != 0 {
        var last := lastPage.value.value;
        var i := 1;
        while i < last
          invariant 1 <= i && (i == 1 || i <= last)
          invariant Gather(callSearchApi, initial, 1, last) == items + Gather(callSearchApi, initial, i, last)
          invariant AllFetched(callSearchApi, initial, 1, i) && requested == Range(1, i)
          invariant queryParameters == if i == 1 then initial else PageQuery(initial, i - 1)
          decreases last - i
        {
          PageQueryTwice(initial, i - 1, i);
          queryParameters := queryParameters["pageIndex" := JInt(i)];
          var response := callSearchApi(queryParameters);
          assert Range(1, i) + [i] == Range(1, i + 1);
          requested := requested + [i];
          if response.None? {
            // `items.extend(None)` raises a TypeError, which the `except` swallows
            assert Gather(callSearchApi, initial, i, last) == [];
            RequestedUpTo(callSearchApi, initial, 1, last, i);
            break;
          }
          assert Gather(callSearchApi, initial, 1, last) == (items + response.value) + Gather(callSearchApi, initial, i + 1, last) by {
            assert Gather(callSearchApi, initial, i, last) == response.value + Gather(callSearchApi, initial, i + 1, last);
          }
          items := items + response.value;
          i := i + 1;
        }
        if 1 <= last && last <= i {
          RequestedUpTo(callSearchApi, initial, 1, last, last);
        }
        assert Gather(callSearchApi, initial, 1, last) == items;
      }
      return Success(items), requested;
    }

    /** `get_items_details`: one record per item, in item order, each computed from its
        own item alone; the first item the per-item step rejects raises, and nothing
        catches the exception. */
    static method GetItemsDetails(items: seq<Json>) returns (r: Result<seq<Record>, PyError>)
      ensures r.Success? <==> forall i | 0 <= i < |items| :: WellShaped(items[i])
      ensures r.Success? ==>
                && |r.value| == |items|
                && forall i | 0 <= i < |items| :: ItemDetails(items[i]) == Success(r.value[i])
      ensures r.Failure? ==>
                exists k | 0 <= k < |items| ::
                  && ItemDetails(items[k]) == Failure(r.error)
                  && forall j | 0 <= j < k :: WellShaped(items[j])
    {
      var results: seq<Record> := [];
      for i := 0 to |items|
        invariant |results| == i
        invariant forall j | 0 <= j < i :: WellShaped(items[j]) && ItemDetails(items[j]) == Success(results[j])
      {
        var details := ItemDetails(items[i]);
        ItemDetailsFailsIff(items[i]);
        if details.Failure? {
          return Failure(details.error);
        }
        results := results + [details.value];
      }
      return Success(results);
    }
  }

  /** With the default query parameters, 100 products need 2 pages of 60. */
  lemma DefaultLastPage()
    ensures LastPage(100, NewEggClient.QueryParams) == Success(Some(2))
  {
  }

  /** The default client asking for 100 products against an endpoint that always
      answers with 60 items requests page 1 only and collects 60 items, not 100. */
  lemma DefaultRunFetchesOnePage(api: SearchApi)
    requires FullPages(api, 60)
    ensures var bound := PageBound(LastPage(100, NewEggClient.QueryParams).value);
            && Requested(api, NewEggClient.QueryParams, 1, bound) == [1]
            && |Gather(api, NewEggClient.QueryParams, 1, bound)| == 60
  {
    DefaultLastPage();
    RequestedUpTo(api, NewEggClient.QueryParams, 1, 2, 2);
    GatherFullPages(api, NewEggClient.QueryParams, 1, 2, 60);
  }
}

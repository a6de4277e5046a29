/** The chainable builder: one object per request that holds the parameter
    mapping and the one live query, and replaces that query stage by stage. */
module QueryBuilder {
  import opened Wrappers
  import opened JsCoercion
  import opened QuerySpec

  /** `{ ...query }` followed by `delete filters[field]` for every excluded
      field: a copy of the parameters without the reserved keys. */
  method StripReserved(params: Params) returns (filters: Params)
    ensures filters == Residual(params)
    ensures forall k :: k in filters <==> k in params && k !in EXCLUDE_FIELDS
    ensures forall k :: k in filters ==> filters[k] == params[k]
  {
    filters := params;
    for i := 0 to |EXCLUDE_FIELDS|
      invariant filters == params - (set k | k in EXCLUDE_FIELDS[..i])
    {
      assert EXCLUDE_FIELDS[..i + 1] == EXCLUDE_FIELDS[..i] + [EXCLUDE_FIELDS[i]];
      filters := filters - {EXCLUDE_FIELDS[i]};
    }
    assert EXCLUDE_FIELDS[..|EXCLUDE_FIELDS|] == EXCLUDE_FIELDS;
  }

  class MongooseQueryBuilder {
    /** The query being narrowed; every stage replaces it. */
    var modelQuery: Query
    /** The request's parameters; no stage changes them. */
    var query: Params
    /** The conditions of the query the builder was given. */
    ghost const initialConditions: seq<Condition>

    /** The builder only ever adds stage conditions to the query it was given. */
    ghost predicate Valid()
      reads this
    {
      NarrowedFrom(modelQuery, initialConditions)
    }

    constructor (modelQuery: Query, query: Params)
      ensures Valid()
      ensures this.modelQuery == modelQuery && this.query == query
      ensures initialConditions == modelQuery.conditions
    {
      this.modelQuery := modelQuery;
      this.query := query;
      initialConditions := modelQuery.conditions;
    }

    method Search(searchableFields: seq<string>) returns (self: MongooseQueryBuilder)
      requires Valid()
      modifies this`modelQuery
      ensures Valid() && self == this && query == old(query)
      ensures modelQuery == SearchStep(old(modelQuery), query, searchableFields)
    {
      StagesOnlyNarrow(modelQuery, initialConditions, query, searchableFields);
      if "searchTerm" in query && Truthy(query["searchTerm"]) {
        var searchTerm := query["searchTerm"];
        modelQuery := Find(modelQuery, SearchCondition(searchableFields, searchTerm));
      }
      self := this;
    }

    method Filter() returns (self: MongooseQueryBuilder)
      requires Valid()
      modifies this`modelQuery
      ensures Valid() && self == this && query == old(query)
      ensures modelQuery == FilterStep(old(modelQuery), query)
    {
      StagesOnlyNarrow(modelQuery, initialConditions, query, []);
      var filters := StripReserved(query);
      modelQuery := FindEqual(modelQuery, filters);
      self := this;
    }

    /** Fails, leaving the query as it was, when `sort` is not a string. */
    method Sort() returns (r: Result<MongooseQueryBuilder, JsError>)
      requires Valid()
      modifies this`modelQuery
      ensures Valid() && query == old(query)
      ensures SortStep(old(modelQuery), query).Success? ==>
        r == Success(this) && modelQuery == SortStep(old(modelQuery), query).value
      ensures SortStep(old(modelQuery), query).Failure? ==>
        r == Failure(SortStep(old(modelQuery), query).error) && modelQuery == old(modelQuery)
    {
      StagesOnlyNarrow(modelQuery, initialConditions, query, []);
      var sortBy := SortOf(query);
      if sortBy.Failure? {
        return Failure(sortBy.error);
      }
      modelQuery := modelQuery.(sort := Some(sortBy.value));
      r := Success(this);
    }

    method Paginate() returns (self: MongooseQueryBuilder)
      requires Valid()
      modifies this`modelQuery
      ensures Valid() && self == this && query == old(query)
      ensures modelQuery == PaginateStep(old(modelQuery), query)
    {
      StagesOnlyNarrow(modelQuery, initialConditions, query, []);
      var page := AtLeastOne(NumberParam(query, "page"), DEFAULT_PAGE);
      var limit := AtLeastOne(NumberParam(query, "limit"), DEFAULT_LIMIT);
      modelQuery := modelQuery.(skip := Some((page - 1) * limit), limit := Some(limit));
      self := this;
    }

    /** Fails, leaving the query as it was, when `fields` is not a string. */
    method Fields() returns (r: Result<MongooseQueryBuilder, JsError>)
      requires Valid()
      modifies this`modelQuery
      ensures Valid() && query == old(query)
      ensures FieldsStep(old(modelQuery), query).Success? ==>
        r == Success(this) && modelQuery == FieldsStep(old(modelQuery), query).value
      ensures FieldsStep(old(modelQuery), query).Failure? ==>
        r == Failure(FieldsStep(old(modelQuery), query).error) && modelQuery == old(modelQuery)
    {
      StagesOnlyNarrow(modelQuery, initialConditions, query, []);
      var fields := ProjectionOf(query);
      if fields.Failure? {
        return Failure(fields.error);
      }
      if fields.value.Some? {
        modelQuery := modelQuery.(projection := fields.value);
      }
      r := Success(this);
    }

    /** `total` is the store's count of documents matching the current
        conditions; the query itself is not changed. */
    method CountTotal(total: nat) returns (info: PageInfo)
      ensures info == CountPages(query, total)
      ensures info.total == total
      ensures info.totalPage == CeilDiv(total, LimitOf(query))
    {
      var limit := AtLeastOne(NumberParam(query, "limit"), DEFAULT_LIMIT);
      var totalPage := CeilDiv(total, limit);
      info := PageInfo(total, totalPage);
    }

    method Build() returns (q: Query)
      ensures q == modelQuery
    {
      q := modelQuery;
    }
  }

  /** A builder that has run no stage builds the query it was given. */
  method BuildFresh(modelQuery: Query, query: Params) returns (q: Query)
    ensures q == modelQuery
  {
    var builder := new MongooseQueryBuilder(modelQuery, query);
    q := builder.Build();
  }

  /** search, filter, sort, paginate, fields and build over the parameters
      `searchTerm=foo&category=x&sort=price&page=2&limit=5&fields=name,-_id`. */
  method ChainExample(searchableFields: seq<string>) returns (q: Query)
    ensures q.conditions == [SearchCondition(searchableFields, Str("foo")),
                             AllEqual(map["category" := Str("x")])]
    ensures q.sort == Some("price")
    ensures q.skip == Some(5) && q.limit == Some(5)
    ensures q.projection == Some("name -_id")
  {
    var params := ChainExampleParamsChecked();
    var search := SearchCondition(searchableFields, Str("foo"));
    var equalities := AllEqual(map["category" := Str("x")]);
    var builder := new MongooseQueryBuilder(EMPTY_QUERY, params);
    var _ := builder.Search(searchableFields);
    assert builder.modelQuery == Query([search], None, None, None, None);
    assert "category" in Residual(params);
    var _ := builder.Filter();
    assert builder.modelQuery.conditions[1].equalities == Residual(params);
    assert builder.modelQuery == Query([search, equalities], None, None, None, None);
    var sorted := builder.Sort();
    assert builder.modelQuery == Query([search, equalities], Some("price"), None, None, None);
    var _ := builder.Paginate();
    assert builder.modelQuery == Query([search, equalities], Some("price"), Some(5), Some(5), None);
    var projected := builder.Fields();
    q := builder.Build();
  }

  /** The parameters of ChainExample (ChainExampleParams), returned together
      with what each stage reads from them. A method's body is hidden from its
      callers, so ChainExample reasons from these facts alone and never from
      the six-entry map itself, whose string keys are costly for the prover. */
  method ChainExampleParamsChecked() returns (params: Params)
    ensures "searchTerm" in params && params["searchTerm"] == Str("foo")
    ensures Residual(params) == map["category" := Str("x")]
    ensures SortOf(params) == Success("price")
    ensures PageOf(params) == 2 && LimitOf(params) == 5
    ensures ProjectionOf(params) == Success(Some("name -_id"))
  {
    params := ChainExampleParams();
    ChainExampleStages(params);
  }

  function ChainExampleParams(): Params {
    map["searchTerm" := Str("foo"), "category" := Str("x"), "sort" := Str("price"),
        "page" := Str("2"), "limit" := Str("5"), "fields" := Str("name,-_id")]
  }

  /** What each stage reads from the parameters of ChainExample. */
  lemma ChainExampleStages(params: Params)
    requires params == ChainExampleParams()
    ensures "searchTerm" in params && params["searchTerm"] == Str("foo")
    ensures Residual(params) == map["category" := Str("x")]
    ensures SortOf(params) == Success("price")
    ensures PageOf(params) == 2 && LimitOf(params) == 5
    ensures ProjectionOf(params) == Success(Some("name -_id"))
  {
    ChainExampleResidual(params);
    ChainExampleSort(params);
    ChainExamplePages(params);
    ChainExampleProjection(params);
  }

  lemma ChainExampleResidual(params: Params)
    requires params == ChainExampleParams()
    ensures Residual(params) == map["category" := Str("x")]
  {
    assert EXCLUDE_FIELDS == ["searchTerm", "sort", "limit", "page", "fields"];
    assert "category" !in ReservedKeys() by {
      assert "category"[0] != "searchTerm"[0] && "category"[0] != "sort"[0];
      assert "category"[0] != "limit"[0] && "category"[0] != "page"[0] && "category"[0] != "fields"[0];
    }
    assert "category" in Residual(params);
  }

  lemma ChainExampleSort(params: Params)
    requires params == ChainExampleParams()
    ensures SortOf(params) == Success("price")
  {
    ReplaceCommasConcat("price", "");
  }

  lemma ChainExamplePages(params: Params)
    requires params == ChainExampleParams()
    ensures PageOf(params) == 2 && LimitOf(params) == 5
  {
    assert "2"[..0] == "" && "5"[..0] == "";
  }

  lemma ChainExampleProjection(params: Params)
    requires params == ChainExampleParams()
    ensures ProjectionOf(params) == Success(Some("name -_id"))
  {
    var included, excluded := "name", "-_id";
    assert "name,-_id" == included + [','] + excluded;
    assert "name -_id" == included + [' '] + excluded;
    ReplaceCommasJoin(included, excluded);
    assert params["fields"] == Str(included + [','] + excluded);
  }
}

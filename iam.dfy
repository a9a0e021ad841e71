/**
 * `IamService` (nodes/help/utils/volcengine/iam.ts): the OpenAPI service
 * with the service name `iam` and the API version `2018-01-01` fixed, and
 * its `ListUsers` binding.
 */
module Iam {
  import opened Base
  import opened Dicts
  import opened JsValues
  import opened Host
  import opened Transport
  import opened OpenApi

  const IamServiceName: string := "iam"
  const IamVersion: string := "2018-01-01"

  /** `{ ...options, defaultVersion: '2018-01-01', serviceName: 'iam' }`. */
  function IamOptions(options: Options): Options {
    options.(defaultVersion := Set(IamVersion), serviceName := Set(IamServiceName))
  }

  /**
   * Whatever the caller passes, the service is `iam` at version
   * `2018-01-01`; every other option is the one a plain service would get.
   */
  lemma IamOptionsFixed(options: Options)
    ensures var o := Defaults.Spread(IamOptions(options));
      && o.serviceName == Set(IamServiceName) && o.defaultVersion == Set(IamVersion)
      && o == Defaults.Spread(options).(serviceName := Set(IamServiceName), defaultVersion := Set(IamVersion))
  {
  }

  /** `new IamService(options)`. */
  method NewIamService(options: Options) returns (s: Service)
    ensures fresh(s) && s.options == Defaults.Spread(IamOptions(options))
  {
    s := new Service(IamOptions(options));
  }

  /** The `ListUsers` binding: `createAPI('ListUsers')`. */
  const ListUsersApi: Api := CreateApi("ListUsers", NoCreateParams)

  /** `iamService.ListUsers(requestData, params, options)`. */
  method ListUsers(s: Service, rt: Runtime, data: Dict<Value>, params: FetchParams, options: Options, iso: string)
    returns (r: Result<Outgoing, string>)
    ensures r == match RequestParamsOf(ListUsersApi, data, params)
                 case Failure(e) => Failure(e)
                 case Success(p) => FetchOpenApiOf(rt, s.options, p, options, iso)
  {
    r := s.CallApi(rt, ListUsersApi, data, params, options, iso);
  }

  /**
   * `ListUsers` is a `GET`: all of its request data is the query, the
   * caller's query is dropped, and the version left open is the service's
   * `2018-01-01` unless the call's options name another.
   */
  lemma ListUsersIsGet(data: Dict<Value>, params: FetchParams, serviceOptions: Options, options: Options)
    requires serviceOptions.defaultVersion == Set(IamVersion) && options.defaultVersion.Absent?
    ensures ListUsersApi == Api("ListUsers", None, "GET", "urlencode", [])
    ensures var p := RequestParamsOf(ListUsersApi, data, params);
      && p.Success?
      && p.value == params.(httpMethod := Set("GET"), action := Set("ListUsers"), version := Undef, query := Set(data))
      && Get(SignedParams(p.value, serviceOptions.Spread(options)), "Version") == Some(Str(IamVersion))
      && Get(SignedParams(p.value, serviceOptions.Spread(options)), "Action") == Some(Str("ListUsers"))
  {
    CreateApiDefaults("ListUsers", NoCreateParams);
  }
}

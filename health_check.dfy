/** The connection diagnosis of `src/utils/healthCheck.ts`. Each probe is the
    outcome of one GET request, given as a parameter: the status it answered
    with, or an exception (a timeout, a refused connection). */
module HealthCheck {
  datatype Probe = Responded(status: int) | Threw

  const ServerUnreachable := "Cannot reach the backend server. Please check if the server is running."
  const CheckPort := "Make sure the server is running on the correct port (default: 5000)."
  const CheckFirewall := "Check if there are any firewall or network issues blocking the connection."
  const DatabaseUnreachable := "Server is reachable but cannot connect to the database."
  const CheckMongo := "Check MongoDB connection string and make sure MongoDB is running."
  const AllOperational := "All systems are operational."

  /** `checkServerHealth` (and `checkDatabaseConnection`, which differs only
      in the path): healthy exactly on a 200 answer, unhealthy on any other
      status and on any exception. */
  function IsHealthy(p: Probe): (up: bool)
    ensures up <==> p.Responded? && p.status == 200
    ensures p.Threw? ==> !up
  {
    match p
    case Responded(status) => status == 200
    case Threw => false
  }

  /** `diagnoseConnectionIssues`: probe the server; if it is down, report the
      three server messages and stop without probing the database; otherwise
      probe the database and report its two messages if it is down; report
      that all is well when nothing was pushed. `databaseChecked` tells whether
      the second probe was made. */
  method DiagnoseConnectionIssues(server: Probe, database: Probe) returns (messages: seq<string>, databaseChecked: bool)
    ensures databaseChecked <==> IsHealthy(server)
    ensures !IsHealthy(server) ==> messages == [ServerUnreachable, CheckPort, CheckFirewall]
    ensures IsHealthy(server) && !IsHealthy(database) ==> messages == [DatabaseUnreachable, CheckMongo]
    ensures IsHealthy(server) && IsHealthy(database) ==> messages == [AllOperational]
    ensures |messages| > 0
    ensures messages[0] == AllOperational <==> IsHealthy(server) && IsHealthy(database)
  {
    messages := [];
    databaseChecked := false;
    var serverReachable := IsHealthy(server);
    if !serverReachable {
      messages := messages + [ServerUnreachable];
      messages := messages + [CheckPort];
      messages := messages + [CheckFirewall];
      return;
    }
    databaseChecked := true;
    var dbConnected := IsHealthy(database);
    if !dbConnected {
      messages := messages + [DatabaseUnreachable];
      messages := messages + [CheckMongo];
    }
    if |messages| == 0 {
      messages := messages + [AllOperational];
    }
  }
}

/**
 * The docker-compose file and Dockerfile shared by src/commands/generators.ts
 * (`generateDocker`) and src/templates/cli/docker.ts (`setupDocker`): an `app`
 * service on port 8080 and a `db` service whose image, port and environment
 * variable names depend on the database type.
 */
module Compose {
  import opened JsString

  /** What the `db` service is made of. */
  datatype DbService = DbService(image: string, dbVar: string, userVar: string, passwordVar: string)

  const Postgres := DbService("postgres:15-alpine", "POSTGRES_DB", "POSTGRES_USER", "POSTGRES_PASSWORD")
  const MySql := DbService("mysql:8", "MYSQL_DATABASE", "MYSQL_USER", "MYSQL_PASSWORD")
  const Mongo := DbService("mongo:6", "MONGO_INITDB_DATABASE", "MONGO_INITDB_ROOT_USERNAME", "MONGO_INITDB_ROOT_PASSWORD")

  /** The `"host:container"` port mapping of the db service. */
  function PortMapping(hostPort: string, containerPort: string): string
  {
    hostPort + ":" + containerPort
  }

  /** Splitting a mapping at its colon gives the host and the container port back. */
  lemma PortMappingSplit(hostPort: string, containerPort: string)
    requires ':' !in hostPort && ':' !in containerPort
    ensures Split(PortMapping(hostPort, containerPort), ':') == [hostPort, containerPort]
  {
    var parts := [hostPort, containerPort];
    assert Join(parts[1..], ':') == containerPort;
    assert Join(parts, ':') == PortMapping(hostPort, containerPort);
    SplitJoin(parts, ':');
  }

  /** The port each image's server listens on by default. */
  function ServerPort(svc: DbService): string
  {
    if svc.image == Postgres.image then "5432"
    else if svc.image == MySql.image then "3306"
    else if svc.image == Mongo.image then "27017"
    else ""
  }

  function ComposeYaml(svc: DbService, ports: string, user: string, password: string): string
  {
    ComposeHead + svc.image + ComposePorts + ports + ComposeEnvironment + svc.dbVar + "=app" + EnvItem +
    svc.userVar + "=" + user + EnvItem + svc.passwordVar + "=" + password
  }

  /** The `app` service and the start of the `db` service, up to its image. */
  const ComposeHead: string := @"version: '3.8'
services:
  app:
    build: .
    ports:
      - ""8080:8080""
    environment:
      - SPRING_PROFILES_ACTIVE=prod
    depends_on:
      - db
  db:
    image: "

  const ComposePorts: string := @"
    ports:
      - """

  const ComposeEnvironment: string := @"""
    environment:
      - "

  const EnvItem: string := @"
      - "

  const Dockerfile: string := @"FROM openjdk:17-jdk-slim
WORKDIR /app
COPY backend/target/*.jar app.jar
EXPOSE 8080
ENTRYPOINT [""java"",""-jar"",""app.jar""]"
}

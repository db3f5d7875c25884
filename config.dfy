/** The fields of the platform's user configuration that the Elastic Runtime
    tile reads. Loading the configuration file is not part of this model:
    a configuration is just a record of already-resolved values. */
module UserConfig {

  datatype Config = Config(
    // Read only by the network helper, which is not part of this model;
    // the network document reaches Configure as a parameter.
    ertSubnetName: string,
    appsDomain: string,
    sysDomain: string,
    sslCertificate: string,
    sslPrivateKey: string,
    tcpPortRange: string,
    externalSqlIp: string,
    externalSqlPort: int,
    ertSqlUsername: string,
    ertSqlPassword: string,
    tcpTargetPoolName: string,
    wssTargetPoolName: string,
    sshTargetPoolName: string,
    httpBackendServiceName: string)
}
